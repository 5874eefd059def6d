# Alert2IR: durable execution, canonical identity and delivery

This project models how Alert2IR takes a Splunk finding to at most one remote investigation and proves what
that design promises.

## What is modelled

**The repositories.** `Repository.dfy` states what one repository call does to the durable state as a function
on a value, statement by statement, including the order of writes around a constructor that may raise.
`MemoryRepository.dfy` is the in-memory class over its dictionaries, each method proved equal to that function.
`PostgresRepository.dfy` is the PostgreSQL class: transactions over two tables of rows that commit or roll back.
Its contracts are the refinement: if the tables stand for a store in lockstep, then after the call they stand for
what the in-memory repository makes of that store, and the caller gets the same reply. `Rows.dfy` and
`Constraints.dfy` hold the row encoding with its round trips and the schema's CHECK and uniqueness constraints.
`PostgresRuns.dfy` carries the refinement to whole runs of the protocol below. `RepositoryWrites.dfy` says of each
call, field by field, what it writes and when.

**The protocol.** `Protocol.dfy` is the state machine of any number of workers - request threads, the startup
pass, the reconcile command - over one store. A program counter stands between two calls and carries the snapshots
the code holds there. A repository call commits and returns, commits and raises, or raises without committing; a
worker may crash anywhere; an `Oracle` holds everything the environment decides. `ProtocolInvariant.dfy` and
`ProtocolSteps.dfy` prove the invariant of every reachable world, `ProtocolTheorems.dfy` what follows for all runs.
`Answers.dfy` collects what planning, `submit`, `poll` and `collect_result` answered along a run and proves that
every stored plan, identifier, result and failure has the answer that calls for it, whatever the branches of the
program are.

**The processor.** `Processor.dfy` is `PersistentAlertProcessor` itself, over the in-memory repository object. A
method may make a call only where the protocol stands at that call, so whatever the code does is a run of the
protocol and the theorems about runs hold of the code. `Answer` stands for the steps of all other workers between
two calls, and `OthersWithinAnswer` proves that they keep within it. `Replies.dfy` holds what a method may tell its
caller. Two ghost constants are the hypotheses of progress: `reliable` (storage commits and answers, fresh
identifiers, a clock that does not run backwards) and `alone`. `Fairness.dfy` sums up what passes achieve.

**Identity.** `Json.dfy`, `Utf8.dfy`, `Digits.dfy`, `Calendar.dfy` and `Timestamps.dfy` are the deterministic JSON of
section 7 of RFC 8259, UTF-8, and the timestamps of section 5.6 of RFC 3339; `Fingerprint.dfy` and
`SplunkMapping.dfy` build the two identity documents, the percent-encoded evidence URI of RFC 3986 and the canonical
alert from them.

**Delivery.** `Delivery.dfy` chains the core's reply, the adapter's client, the adapter's reply and the sender's
retry loop; `Backends.dfy` proves that planning and the Velociraptor backend keep the contract the protocol relies
on; `EndToEnd.dfy` puts the parts together.

Identifiers are natural numbers, instants are microseconds since 1970, digests are functions. A clock reading may be
earlier than the one before, but not earlier than the creation of a stored record; the lemmas ending in `Exactly`
show that this is the condition the code needs. At most one submission needs no condition at all (`SubmitOnce.dfy`).

## What the proofs brought out

- The in-memory repository writes the attempt before the record's constructor can raise, so a clock reading before
  the record's creation leaves the pair out of step, and only such a reading does (`ClaimKeepsExactly` and its kin).
- `fail_processing` answers differently in the two repositories when the attempt is active and the record is in no
  expected state: one returns nothing, the other rolls back and raises. Stored contents agree.
- The tables hold neither the source of a decision nor the plan a result was built from, so PostgreSQL takes on what is
  stored where the in-memory repository raises or keeps what it was given (`NoActionAgrees`, `CompleteAgrees`). A backend
  name of Unicode spaces passes the CHECKs and makes the attempt unreadable (`StorePlan`). The first two never happen
  to the processor (`CallsAllowed`).
- Nothing in the code keeps a worker that has claimed an attempt from calling `submit` after another worker gave the
  record up as stale (`SubmitAfterRecovery`). What holds is `SubmitIsWriteAhead`, and at most one flow.
- PostgreSQL commits and answers a claim at a clock reading before the record's creation, and then cannot read the
  record (`EarlyClaim`).
- An upstream reply whose decision outcome is an array or object makes the adapter's client raise, whatever the status:
  the sender gets a plain 500 and retries, even after a success (`RaisingReply`). The core sends no such reply.
- A classification that is an array or object ends the sender with an exception instead of a fallback (`Deliver`).
- A storage failure is reported to the sender as "acceptance known not to have happened", although the record is
  stored when a later call failed or when the answer of the acceptance was lost (`AcceptanceFailure`, `LaterFailure`).
- A channel that cannot be made while polling raises the error meant for submissions; the processor treats it as an
  uninterpretable status and gives the record up, although nothing is wrong with the operation.
- A missing capability found while submitting is not a rejection but an unknown outcome, although no query ran.
- Numeric epochs of more than 28 significant digits can normalize one microsecond late.

## Model

| member | source | states |
|---|---|---|
| `SubmitOnce.AtMostOneSubmit` | src/alert2ir/application/processing.py:344-383 | In any sequence of events from the empty store - any interleaving, crashes, lost acknowledgements, and whatever clocks, planners, backends and storage answer - two calls of `backend.submit` were made for different scoped idempotency keys |
| `SubmitOnce.EventOnce` | src/alert2ir/application/processing.py:344-383 | Any event at all leaves every claim with one worker and every call with an attempt that was claimed before and is never called again |
| `ProtocolTheorems.SubmitIsWriteAhead` | src/alert2ir/application/processing.py:344-383 | A worker about to call `submit` holds the only claim on its attempt, the claim is durable, and no call was made for it before; meanwhile the record can at most have been given up as recovery-required |
| `ProtocolTheorems.FlowAccounting` | src/alert2ir/application/processing.py:375-430 | In every run the number of remote flows of a processing is the one its state allows: none for accepted, planned, no-action, unconfigured and rejected work, exactly one for submitted, investigated and executed work, at most one while submitting or given up |
| `ProtocolTheorems.OneEventMoves` | src/alert2ir/application/persistence.py:48-86 | One event moves a record along the transition table or not at all, and never touches a settled record |
| `ProtocolTheorems.WrittenOnce` | src/alert2ir/persistence/memory.py:166-213 | Along any run identities, plans, claims and external identifiers are written once, a key keeps its processing, and completed, failed and recovery-required records keep every field |
| `ProtocolTheorems.LookupsUseStoredId` | src/alert2ir/application/processing.py:586-629 | Every poll and collect call ever made used the identifier stored for its attempt, which names an existing flow |
| `ProtocolTheorems.ResultFidelity` | src/alert2ir/application/processing.py:697-729 | A completed investigation carries the decision, incident and request stored as its plan, and its result names the backend selected then, whatever stale snapshot the completing worker held |
| `ProtocolTheorems.ReachableLockstep` | src/alert2ir/application/persistence.py:124-194 | In every reachable world accepted records have no attempt, open ones exactly one in the same-named state, terminal ones a matching terminal attempt or none, and the indexes are injective and consistent |
| `Answers.RemoteFactsAnswered` | src/alert2ir/application/processing.py:600-735 | In every reachable world what is stored of the remote side was answered by it: a completed record with an attempt was polled as succeeded and carries the result that was collected, a failure of the execution was polled as failed, a rejection was raised by `submit`, and a stored identifier is the one `submit` returned |
| `Answers.PlansAnswered` | src/alert2ir/application/processing.py:202-287 | And what is stored of a plan was planned for it: the plan itself, a completion without investigation, and each planning failure by its category |
| `Answers.EventBacked` | src/alert2ir/application/processing.py:145-856 | One event stores nothing and leads nowhere that the answers heard so far do not call for |
| `ProtocolTheorems.RunKeeps` | src/alert2ir/application/processing.py:145-856 | The invariant holds after any run and the store only evolves |
| `ProtocolSteps.EventKeeps` | src/alert2ir/application/processing.py:145-856 | Every enabled event keeps the invariant and changes the store by at most one legal call |
| `ProtocolSteps.WriteStepKeeps` | src/alert2ir/application/processing.py:202-735 | Each writing call, committed or not and acknowledged or not, keeps the invariant |
| `ProtocolSteps.CallingKeeps` | src/alert2ir/application/processing.py:375-383 | The submit call uses up its token and keeps the remote accounts |
| `ProtocolSteps.SnapResult` | src/alert2ir/application/processing.py:697-729 | A result put together from a stale snapshot of a submitted record carries the stored plan |
| `ProtocolSteps.BeginKeeps` | src/alert2ir/application/processing.py:145-194 | Acceptance keeps the invariant; only the creator goes on to plan |
| `ProtocolEffects.WriteEffect` | src/alert2ir/persistence/memory.py:90-360 | An answered write takes effect exactly where the stored record is in the expected state; then it moves it to the intended state, stamps it and touches no other record, and otherwise it changes nothing and the program reads again |
| `RepositoryInvariant.AcceptKeeps` | src/alert2ir/persistence/memory.py:35-75 | Acceptance keeps lockstep; it creates under a fresh key and otherwise returns the record the key names |
| `RepositoryInvariant.StorePlanKeeps` | src/alert2ir/persistence/memory.py:110-153 | Storing a plan keeps lockstep, applies to an accepted record only, and adds its one attempt |
| `RepositoryInvariant.StoreNoActionKeeps` | src/alert2ir/persistence/memory.py:90-108 | Storing a no-action result keeps lockstep and applies to an accepted record only |
| `RepositoryInvariant.ClaimKeeps` | src/alert2ir/persistence/memory.py:166-188 | A claim keeps lockstep, succeeds exactly on a planned attempt and writes the claim time |
| `RepositoryInvariant.ClaimKeepsExactly` | src/alert2ir/persistence/memory.py:182-187 | A claim that passes its guard keeps lockstep if and only if the clock does not read before the creation of the record: the attempt is written before the constructor of the record can raise |
| `RepositoryInvariant.MarkSubmittedKeeps` | src/alert2ir/persistence/memory.py:190-213 | Recording the external identifier keeps lockstep and succeeds exactly on a submitting attempt |
| `RepositoryInvariant.MarkSubmittedKeepsExactly` | src/alert2ir/persistence/memory.py:206-212 | The same exact clock condition for recording the external identifier |
| `RepositoryInvariant.RecordPollKeeps` | src/alert2ir/persistence/memory.py:215-244 | Recording a poll keeps lockstep and succeeds exactly on a submitted attempt |
| `RepositoryInvariant.RecordPollKeepsExactly` | src/alert2ir/persistence/memory.py:229-243 | A poll keeps lockstep if and only if the clock is not early or the error does not change |
| `RepositoryInvariant.CompleteKeeps` | src/alert2ir/persistence/memory.py:246-281 | Completion keeps lockstep and succeeds exactly on a submitted attempt |
| `RepositoryInvariant.FailAcceptedKeeps` | src/alert2ir/application/processing.py:296-301 | Failing without an attempt keeps lockstep when only accepted records are expected |
| `RepositoryInvariant.FailWithoutAttemptExactly` | src/alert2ir/persistence/memory.py:283-325 | Failing without an attempt an unsettled record in its own state keeps lockstep if and only if that state is accepted |
| `RepositoryInvariant.FailAttemptKeeps` | src/alert2ir/persistence/memory.py:283-325 | Failing an attempt and its record keeps lockstep and succeeds exactly in the expected state |
| `RepositoryInvariant.RecoveryKeeps` | src/alert2ir/persistence/memory.py:327-360 | Giving up an attempt keeps lockstep and succeeds exactly in the expected state |
| `RepositoryInvariant.RecoveryKeepsExactly` | src/alert2ir/persistence/memory.py:346-359 | The same exact clock condition for giving up |
| `RepositoryWrites.AcceptWrites` | src/alert2ir/persistence/memory.py:35-75 | On tables in lockstep: a new key stores a fresh accepted record with nothing decided, field by field; a known key stores nothing and returns the record it stands for |
| `RepositoryWrites.PlanWrites` | src/alert2ir/persistence/memory.py:110-153 | An accepted record, and no other, takes the plan, with one new attempt, field by field |
| `RepositoryWrites.NoActionWrites` | src/alert2ir/persistence/memory.py:90-108 | An accepted record, and no other, is completed with the result and the time |
| `RepositoryWrites.ClaimWrites` | src/alert2ir/persistence/memory.py:166-188 | A planned attempt, and no other, starts submitting now, and its record with it; nothing else changes |
| `RepositoryWrites.MarkWrites` | src/alert2ir/persistence/memory.py:190-213 | A submitting attempt, and no other, takes the identifier and the time |
| `RepositoryWrites.PollWrites` | src/alert2ir/persistence/memory.py:215-244 | A submitted attempt, and no other, takes the time, the remote state and the error, and its record the error |
| `RepositoryWrites.CompleteWrites` | src/alert2ir/persistence/memory.py:246-281 | A submitted attempt, and no other, is completed together with its record, which takes the result; both errors are cleared |
| `RepositoryWrites.FailAcceptedWrites` | src/alert2ir/application/processing.py:289-314 | Without an attempt an accepted record, and no other, fails with the error |
| `RepositoryWrites.FailAttemptWrites` | src/alert2ir/persistence/memory.py:283-325 | In the expected state, and in no other, attempt and record fail with the same error |
| `RepositoryWrites.RecoveryWrites` | src/alert2ir/persistence/memory.py:327-360 | In the expected state, and in no other, attempt and record become recovery-required with the same error and keep all else |
| `MemoryRepository.InMemoryProcessingRepository.AcceptProcessing` | src/alert2ir/persistence/memory.py:35-75 | The dictionaries and the reply are what the specification makes of the old contents |
| `MemoryRepository.InMemoryProcessingRepository.StorePlan` | src/alert2ir/persistence/memory.py:110-153 | Likewise: four dictionaries change together or none does |
| `MemoryRepository.InMemoryProcessingRepository.StoreNoActionResult` | src/alert2ir/persistence/memory.py:90-108 | Likewise |
| `MemoryRepository.InMemoryProcessingRepository.ClaimAttempt` | src/alert2ir/persistence/memory.py:166-188 | Likewise, with the attempt written before the record is constructed |
| `MemoryRepository.InMemoryProcessingRepository.MarkSubmitted` | src/alert2ir/persistence/memory.py:190-213 | Likewise |
| `MemoryRepository.InMemoryProcessingRepository.RecordPoll` | src/alert2ir/persistence/memory.py:215-244 | Likewise |
| `MemoryRepository.InMemoryProcessingRepository.CompleteProcessing` | src/alert2ir/persistence/memory.py:246-281 | Likewise, with both values constructed before either is written |
| `MemoryRepository.InMemoryProcessingRepository.FailProcessing` | src/alert2ir/persistence/memory.py:283-325 | Likewise, with the record written before the attempt is constructed |
| `MemoryRepository.InMemoryProcessingRepository.MarkRecoveryRequired` | src/alert2ir/persistence/memory.py:327-360 | Likewise |
| `MemoryRepository.InMemoryProcessingRepository.GetAttemptForProcessing` | src/alert2ir/persistence/memory.py:159-164 | Reads the attempt the index names |
| `MemoryRepository.InMemoryProcessingRepository.FindReconcilable` | src/alert2ir/persistence/memory.py:362-388 | Filling, sorting and cutting the list gives the first eligible records in key order, and no eligible record before them is missing |
| `WorkList.SortedCut` | src/alert2ir/persistence/memory.py:387-388 | The sorted and cut eligible records are the work list |
| `WorkList.WorkListUnique` | src/alert2ir/persistence/memory.py:362-388 | There is only one work list, so the two repositories return the same |
| `PostgresRepository.PostgresProcessingRepository.AcceptProcessing` | src/alert2ir/persistence/postgres.py:371-401 | If the tables stand for a store in lockstep, afterwards they stand for what the in-memory repository makes of it, and the reply is the same in public form |
| `PostgresRepository.PostgresProcessingRepository.Get` | src/alert2ir/persistence/postgres.py:403-408 | Reads back the public form of the stored record |
| `PostgresRepository.PostgresProcessingRepository.StoreNoActionResult` | src/alert2ir/persistence/postgres.py:422-442 | The refinement for the no-action update, with the source of the stored alert in place of the one of the decision, which no column holds |
| `PostgresRepository.NoActionAgrees` | src/alert2ir/persistence/memory.py:90-108 | So the two repositories agree if and only if the decision has the source of the stored alert or nothing is stored; otherwise the in-memory one raises |
| `PostgresRepository.PostgresProcessingRepository.StorePlan` | src/alert2ir/persistence/postgres.py:444-503 | The refinement for the update and the insert, which either both commit or neither does; it fails exactly for an otherwise storable plan whose backend name consists of spaces PostgreSQL does not count: then the rows are committed and the attempt cannot be read |
| `PostgresRepository.PostgresProcessingRepository.GetAttemptForProcessing` | src/alert2ir/persistence/postgres.py:512-519 | The highest-numbered attempt row is the attempt the index names |
| `PostgresRepository.PostgresProcessingRepository.ClaimAttempt` | src/alert2ir/persistence/postgres.py:521-545 | The refinement for the claim |
| `PostgresRepository.PostgresProcessingRepository.MarkSubmitted` | src/alert2ir/persistence/postgres.py:547-572 | The refinement for recording the identifier |
| `PostgresRepository.PostgresProcessingRepository.RecordPoll` | src/alert2ir/persistence/postgres.py:574-619 | The refinement for a poll |
| `PostgresRepository.PostgresProcessingRepository.CompleteProcessing` | src/alert2ir/persistence/postgres.py:621-669 | The refinement for completion: the tables take on the result with the stored plan, and raise after the commit where the result given carries another |
| `PostgresRepository.CompleteAgrees` | src/alert2ir/persistence/memory.py:246-281 | So the two repositories store the same completion if and only if the result carries the stored plan |
| `PostgresRepository.PostgresProcessingRepository.FailProcessing` | src/alert2ir/persistence/postgres.py:671-718 | The refinement for failing; the replies differ in exactly one case, where the attempt is active and the record is in no expected state |
| `PostgresRepository.PostgresProcessingRepository.MarkRecoveryRequired` | src/alert2ir/persistence/postgres.py:720-770 | The refinement for giving up |
| `PostgresRepository.PostgresProcessingRepository.FindReconcilable` | src/alert2ir/persistence/postgres.py:772-802 | Selecting, ordering and limiting rows gives the same work list |
| `PostgresRepository.EarlyClaim` | src/alert2ir/persistence/postgres.py:521-545 | At a clock reading before the creation of the record the claim is committed and answered, and exactly then the record cannot be read any more; exactly then the in-memory claim raises |
| `PostgresRepository.EarlyRow` | src/alert2ir/persistence/postgres.py:213-293 | No CHECK compares the two times: a stored row is accepted with any update time and reads back if and only if that is not before its creation |
| `PostgresRuns.PostgresRunIsRun` | src/alert2ir/application/processing.py:145-856 | Any run of workers over the tables, with the replies its methods promise, is a run of the protocol with the same store, remote side and clock: snapshots may be in public form, and an error of `fail_processing` stands for a call that was not committed |
| `PostgresRuns.CallsAllowed` | src/alert2ir/persistence/postgres.py:422-770 | Every writing call of such a run meets what its method requires and what keeps the two repositories together |
| `PostgresRuns.PostgresGuarantees` | src/alert2ir/application/processing.py:145-856 | So lockstep, the accounting of flows and at most one submission for each key hold over the tables |
| `PostgresRepository.PostgresProcessingRepository.SelectedIsEligible` | src/alert2ir/persistence/postgres.py:784-792 | The WHERE clause over the join selects exactly the eligible records |
| `PostgresRepository.NewRowChecks` | migrations/versions/0002_durable_execution.py:48-79 | The CHECKs refuse a new row exactly where the in-memory repository validates the key and the scope |
| `Rows.SnapshotRoundTrip` | src/alert2ir/persistence/postgres.py:213-293 | The row of any stored record deserializes without raising and gives back its public form, order and nulls included |
| `Rows.DecodeAllInverse` | src/alert2ir/persistence/postgres.py:137-157 | A decoder that undoes an encoder item by item undoes it on whole arrays, in order |
| `Constraints.EncodedDatabaseOk` | migrations/versions/0002_durable_execution.py:41-195 | The tables that stand for a store in lockstep satisfy every CHECK and uniqueness constraint |
| `Constraints.StoredRowChecks` | migrations/versions/0002_durable_execution.py:98-195 | The row of a stored record passes the record CHECKs |
| `Constraints.StoredAttemptChecks` | migrations/versions/0002_durable_execution.py:218-307 | The row of a stored attempt passes the attempt CHECKs |
| `Processor.PersistentAlertProcessor.Process` | src/alert2ir/application/processing.py:145-194 | A run of the protocol from start to end. A processed outcome carries the identity of this request, whether replayed or not, and for a worker that is alone the record as it is stored. With the key stored beforehand the outcome is exactly a conflict with the stored record for another fingerprint, its replay for the same one, and nothing is stored; a fresh key is never a conflict or a replay, and its record is left settled or with a poll still open; an unacceptable key is refused |
| `Processor.PersistentAlertProcessor.AdvanceAccepted` | src/alert2ir/application/processing.py:202-287 | A run of the protocol; answered calls leave the record past acceptance, and a worker that is alone leaves it settled or with a poll still open |
| `Processor.PersistentAlertProcessor.ActOnPlan` | src/alert2ir/application/processing.py:207-287 | Where each answer of planning leads a worker that is alone: an unsupported or ambiguous plan and a planning error raise and fail the record under their categories, a plan for no action completes it with that decision, and an investigation makes one more submit call, or none and a failed record when the selected name is not configured once |
| `Processor.PersistentAlertProcessor.Submit` | src/alert2ir/application/processing.py:316-353 | A run of the protocol. For a worker that is alone: if the selected name is not found exactly once, the record fails as `backend_selection_error` and the remote side is not touched; otherwise, within the budget, exactly this attempt is submitted |
| `Processor.PersistentAlertProcessor.SubmitClaimed` | src/alert2ir/application/processing.py:359-460 | A run of the protocol. For a worker that is alone exactly one submit call for the claimed attempt, or, only when the budget is spent, none and a recovery-required record |
| `Processor.PersistentAlertProcessor.ActOnSubmission` | src/alert2ir/application/processing.py:384-460 | Where each outcome of `submit` leads: an identifier to a submitted record or further, a rejection to a failed one, anything else to a recovery-required one, under their categories |
| `Processor.PersistentAlertProcessor.PollSubmitted` | src/alert2ir/application/processing.py:577-735 | A run of the protocol that makes no submit call. For a worker that is alone: if the record is not ready or the selected name is not found exactly once, nothing is looked up and the record is given up as recovery-required; otherwise, within the budget, this attempt is looked up. Answered calls within the budget settle the record, or stamp it after a poll that found the operation still open |
| `Processor.PersistentAlertProcessor.ActOnStatus` | src/alert2ir/application/processing.py:617-735 | Where each answer of a poll leads a submitted record, for a worker that is alone and in time: a failed operation to failed, a succeeded one to completed or recovery-required, an open one and a timeout to submitted, and an error or a state that cannot be interpreted to recovery-required, under their categories |
| `Processor.PersistentAlertProcessor.ActOnResult` | src/alert2ir/application/processing.py:686-735 | For a worker that is alone, a collected result completes the record with the stored plan if and only if it names the selected backend and completes that plan; anything else gives the record up |
| `Processor.PersistentAlertProcessor.BackendSubmit` | src/alert2ir/application/processing.py:375-383 | A pass hands over exactly the rest of its budget: positive and never more than before |
| `Processor.PersistentAlertProcessor.BackendPoll` | src/alert2ir/application/processing.py:617-629 | The same for polls |
| `Processor.PersistentAlertProcessor.FindReconcilable` | src/alert2ir/application/processing.py:757-764 | Opens a pass on the work list of that moment |
| `Processor.PersistentAlertProcessor.Turn` | src/alert2ir/application/processing.py:765-845 | One turn: the read outside the error handling can end the pass, anything else is counted; an examined record is stamped, or settled by a worker that is alone |
| `Processor.PersistentAlertProcessor.Examine` | src/alert2ir/application/processing.py:782-843 | What a pass does with each record for a worker that is alone: a planned one is submitted or failed, a submitted one looked up or given up, according to whether its backend is configured once; a stale submitting one is given up without touching the remote side |
| `Processor.PersistentAlertProcessor.ExamineAll` | src/alert2ir/application/processing.py:764-851 | The loop: the counters are the turns taken, those that raised and those that moved their record; without the time limit every record is examined |
| `Processor.PersistentAlertProcessor.ReconcileOnce` | src/alert2ir/application/processing.py:745-856 | A run of the protocol; the report counts the turns that raised and those that moved their record, and advanced + failed <= examined <= found <= limit; timeouts positive, never growing and within the seconds granted; with answering storage and budget to spare every record found was examined and stamped, and a worker that is alone leaves each submitted or settled |
| `Processor.OthersWithinAnswer` | src/alert2ir/application/processing.py:145-856 | Whatever events of other workers happen between two calls, for as long as they like, the run goes on, this worker stands where it stood, no record falls back and, with a steady clock, every change is stamped |
| `Runs.SubmitAfterRecovery` | src/alert2ir/application/processing.py:344-383 | Three steps lead from a claimed attempt and a worker giving it up to a recovery-required record with a flow: the accounting for that state cannot be zero |
| `Fairness.NoStarvation` | src/alert2ir/application/processing.py:745-856 | An eligible record with m unsettled records before it is taken up within m / limit + 1 passes, whatever arrives meanwhile, unless someone else moves it first |
| `Fairness.PassAdvances` | src/alert2ir/persistence/memory.py:362-388 | A full pass that does not reach the record takes `limit` others out of its way |
| `Fairness.Quiescent` | src/alert2ir/application/processing.py:745-856 | After a solitary pass with room for every eligible record none is accepted or planned, and none is submitting from before the cutoff |
| `Fairness.SettlesEventually` | src/alert2ir/application/processing.py:745-856 | If from some solitary pass on polls find operations running fewer times than there are passes, every record that pass could take up is settled in the end: accepted, planned, submitted, or claimed before its cutoff |
| `Fairness.EverythingSettles` | src/alert2ir/application/processing.py:745-856 | So every record there was at first is settled in the end, if that pass looks back past the claim the record may have had; others may act between two passes |
| `Fingerprint.FingerprintInjective` | src/alert2ir/application/fingerprinting.py:16-56 | Two alerts have the same fingerprint bytes if and only if all fields and list orders agree, the time as an instant |
| `Fingerprint.FindingInjective` | src/alert2ir/adapters/splunk/idempotency.py:29-56 | Two findings have the same identity bytes if and only if rule, channel, computer, instant, event code and record number agree |
| `Json.TextInjective` | src/alert2ir/application/fingerprinting.py:47-56 | Two documents with the same text are the same document |
| `Json.ReadValue` | src/alert2ir/application/fingerprinting.py:47-56 | A text starts with at most one value, which ends at one place |
| `Json.EscapeCode` | src/alert2ir/application/fingerprinting.py:47-56 | String escapes form a prefix code |
| `Json.DumpsExactly` | src/alert2ir/application/fingerprinting.py:47-56 | Two Python values have the same text if and only if they are equal: lists item by item, dictionaries key by key, in whatever order and at whatever depth members were given |
| `Utf8.EncodeInjective` | src/alert2ir/application/fingerprinting.py:56 | Different strings have different bytes |
| `Timestamps.EpochFloors` | src/alert2ir/adapters/splunk/mapping.py:85-105 | An epoch of at most 28 significant digits normalizes to the microsecond it falls in, before 1970 too |
| `Timestamps.EpochExactly` | src/alert2ir/adapters/splunk/mapping.py:101-105 | Beyond 28 digits it does so if and only if the remainder below a microsecond is more than half a unit of the 28th digit short of the next one; otherwise it is one microsecond late or out of range |
| `Timestamps.EpochOvershoots` | src/alert2ir/adapters/splunk/mapping.py:101-105 | 0.9 with 29 nines is such an input |
| `Timestamps.NotationsAgree` | src/alert2ir/adapters/splunk/mapping.py:99-105 | Flooring a numeric epoch agrees with truncating the fraction of the same instant |
| `Timestamps.Rfc3339Agrees` | src/alert2ir/adapters/splunk/mapping.py:123-131 | An RFC 3339 text normalizes to the instant of its fields plus its truncated fraction, less 60 h + m minutes for an offset of +h:m and plus them for -h:m; it is refused exactly where that leaves the supported years or the offset reaches a day |
| `Timestamps.Rfc3339Only` | src/alert2ir/adapters/splunk/mapping.py:35-39 | Nothing but a valid second, an optional fraction and such an offset or Z is accepted |
| `Timestamps.EpochTextOnly` | src/alert2ir/adapters/splunk/mapping.py:34 | Nothing but an optional sign, digits and an optional point among or around them is taken for an epoch |
| `Timestamps.TextsAgree` | src/alert2ir/adapters/splunk/mapping.py:85-131 | An epoch text and an RFC 3339 text for one instant, before or after 1970, at any offset, with any fraction or none, normalize alike if and only if the epoch has at most 28 digits or carries below a microsecond what `EpochExactly` allows; the RFC 3339 text always normalizes to that microsecond |
| `Timestamps.SignedText` | src/alert2ir/adapters/splunk/mapping.py:34 | A signed epoch text denotes the whole second at or before it and the digits from there on, complemented before 1970 |
| `Timestamps.EpochParts` | src/alert2ir/adapters/splunk/mapping.py:85-105 | Every epoch in range is such a second and fraction |
| `Timestamps.PrintRoundTrip` | src/alert2ir/adapters/splunk/idempotency.py:16-26 | Printing a normalized instant and normalizing it again gives it back |
| `Timestamps.PrintInjective` | src/alert2ir/adapters/splunk/idempotency.py:16-26 | The canonical text determines the instant |
| `Calendar.DateOfRight` | src/alert2ir/adapters/splunk/mapping.py:105 | Every day of years 1 to 9999 comes from the date computed for it |
| `Calendar.DateOfOrdinal` | src/alert2ir/adapters/splunk/mapping.py:105 | And from no other: the date computed for the day of a valid date is that date |
| `Calendar.DayByDay` | src/alert2ir/adapters/splunk/mapping.py:105 | Day numbers go up by one from each date to the next one of the calendar |
| `SplunkMapping.SourceEventInjective` | src/alert2ir/adapters/splunk/mapping.py:180-186 | The evidence URI determines computer, channel, record number and event code |
| `SplunkMapping.SourceEventFits` | src/alert2ir/adapters/splunk/mapping.py:164-186 | It has at most 693 characters, so the guard at 1024 never fires on it |
| `SplunkMapping.EvidenceBuilt` | src/alert2ir/adapters/splunk/mapping.py:170-201 | Building the evidence of a validated finding never raises |
| `SplunkMapping.CanonicalAlertValid` | src/alert2ir/adapters/splunk/mapping.py:204-233 | A validated finding gives an alert and a key the core accepts |
| `SplunkMapping.AlertTells` | src/alert2ir/adapters/splunk/mapping.py:204-233 | Which part of the finding each part of the alert takes: rule, title, time, host, severity of the level, key, and as evidence the level mapping, the source event and each given reference under its own kind |
| `SplunkMapping.CanonicalizeInjective` | src/alert2ir/adapters/splunk/mapping.py:204-233 | Two validated findings give the same alert if and only if they are the same in every field |
| `SplunkMapping.NormalizedHostname` | src/alert2ir/adapters/splunk/mapping.py:53-65 | Normalizing gives a normal host name |
| `SplunkMapping.NormalHostnameStays` | src/alert2ir/adapters/splunk/mapping.py:53-65 | A normal host name is its own normal form |
| `SplunkMapping.HostsAgree` | src/alert2ir/adapters/splunk/mapping.py:68-82 | A host is found if and only if a name is given and all names given normalize to the same one, which is the result |
| `SplunkMapping.HostnameMeans` | src/alert2ir/adapters/splunk/mapping.py:53-65 | A name of dot-separated labels, with blanks around it and one final dot or none, normalizes to itself with its capitals in lower case |
| `SplunkMapping.HostnameOnly` | src/alert2ir/adapters/splunk/mapping.py:53-65 | And nothing else is taken for a host name |
| `Backends.PlanSound` | src/alert2ir/application/orchestrator.py:118-132 | A plan is what the protocol takes it for: it raises if and only if decision or request are about something else, plans no action as decided, is unsupported where no backend has every required capability, ambiguous where two have, and goes to the only one otherwise |
| `Backends.SelectedFoundAgain` | src/alert2ir/backends/router.py:36-57 | When no two backends share a name, the persisted name finds exactly the one eligible backend the plan selected |
| `Backends.NamedCount` | src/alert2ir/backends/router.py:51-57 | A persisted name is found if and only if the configuration has it at exactly one position |
| `Backends.SubmitKeepsContract` | src/alert2ir/backends/velociraptor.py:572-623 | A returned identifier names an existing flow, and a rejection is raised if and only if the target does not resolve or the channel cannot be made, so no query ran |
| `Backends.SubmitExact` | src/alert2ir/backends/velociraptor.py:572-623 | A submission is created if and only if the request names one known host and nothing but process lists, time is left, and the one row that comes back is about this client and artifact; it is rejected if and only if the host is not known or the channel cannot be made |
| `Backends.PollSound` | src/alert2ir/backends/velociraptor.py:328-382 | A poll reports a state if and only if one row shows it that carries the identity of this flow, this client and this artifact, or there is no row yet: success from FINISHED, failure from ERROR, open from the five open states; always with text the store accepts. It times out if and only if its query does |
| `Backends.CollectSound` | src/alert2ir/backends/velociraptor.py:640-657 | The collected result is valid, names this backend and the capabilities asked for, and is refused if and only if the request names no known host, asks for more, or the identifier is blank |
| `Delivery.RetryAgreement` | src/alert2ir/adapters/splunk/client.py:159-217 | The sender recognizes the reply of the adapter, rather than falling back on its status, if and only if the client does not raise: no `decision` object whose outcome is an array or object, no parser error other than `ValueError`, a status from 100 to 599. Then it retries exactly when the adapter said so; otherwise it retries whatever the core had answered |
| `Delivery.RaisingReply` | src/alert2ir/adapters/splunk/client.py:121-130 | A 200 whose decision outcome is an array is such a reply |
| `Delivery.AnswerNeverRaises` | src/alert2ir/api/schemas.py:183-243 | No document the core builds makes the client raise |
| `Delivery.AdapterReplyReadsBack` | src/alert2ir/adapters/splunk/app.py:157-164 | The bytes of the adapter stand for its document and no other |
| `Delivery.StoredRepliesFinal` | src/alert2ir/api/app.py:102-134 | The reply the core makes from a stored record is recognized and never retried, even with a body too large to read, and counts as delivered unless the record failed |
| `Delivery.RetriedAnswers` | src/alert2ir/api/app.py:283-384 | Every answer of the core is recognized; the sender reports success if and only if it is a stored record that did not fail, and tries again exactly after a storage failure or an internal error that names no processing |
| `Delivery.AnswerSeen` | src/alert2ir/api/app.py:283-384 | The client sees 200 exactly for a completed record, 202 exactly for an open one, 400 for a missing or invalid key, 409 for a conflict or an unsupported capability, 422 for an invalid request, 503 for a storage failure and 500 for every other failure |
| `Delivery.AnswerTaken` | src/alert2ir/adapters/splunk/client.py:159-217 | It takes an internal failure for durable if and only if the answer names a processing, and reports acceptance unknown if and only if it names none |
| `Delivery.AcceptanceUnknown` | src/alert2ir/adapters/splunk/client.py:159-283 | Over all replies and transport errors, acceptance is unknown exactly where the request may have arrived without an answer that settles it |
| `Delivery.VocabularyExact` | integrations/splunk/alert2ir_delivery/bin/alert2ir_delivery.py:566-602 | The sender recognizes a status with a classification and a retry flag if and only if some upstream answer makes the adapter send these three |
| `Delivery.FallbackAgrees` | integrations/splunk/alert2ir_delivery/bin/alert2ir_delivery.py:541-563 | Without the body the status alone tells the sender the same of every reply of the adapter but a durable failure, which it then tries again |
| `Delivery.UnreadableReplies` | integrations/splunk/alert2ir_delivery/bin/alert2ir_delivery.py:541-577 | A reply without a readable body is a success exactly at 200 and 202, final at 300 to 499, and tried again at every other status |
| `Delivery.AdapterReplyFits` | src/alert2ir/adapters/splunk/app.py:74-89 | The reply of the adapter has at most 65536 bytes |
| `Delivery.Deliver` | integrations/splunk/alert2ir_delivery/bin/alert2ir_delivery.py:690-735 | At most three calls with identical bodies, pauses of one and two seconds, a further call exactly after a retryable answer, and an exception exactly where the parser raises or the classification is an array or object |
| `EndToEnd.AcceptanceFailure` | src/alert2ir/api/app.py:315-326 | A storage failure is reported as nothing accepted; after a failed acceptance that is right unless the key was taken before or the call committed and only its answer was lost |
| `EndToEnd.LaterFailure` | src/alert2ir/api/app.py:315-326 | After any later failed call it is wrong: the key is stored |
| `EndToEnd.OneFindingOneSubmission` | src/alert2ir/application/processing.py:145-194 | In any run of any number of deliveries a validated finding has at most one processing and at most one submission, with at most one flow, and matches the stored fingerprint exactly when its alert is the stored one |
| `EndToEnd.SameKeySameEvent` | src/alert2ir/adapters/splunk/idempotency.py:59-68 | Without a digest collision two findings share a key if and only if rule, channel, computer, time, event code and record number agree |
| `EndToEnd.RunHonest` | src/alert2ir/application/processing.py:152-170 | Along any run stored fingerprints are those of the stored alerts |
| `EndToEnd.NewRecordsOf` | src/alert2ir/persistence/memory.py:35-75 | Only an acceptance creates a record |

## Left out

- Legacy rows without an idempotency identity, which only the first migration could have written, are not part of the stores considered.
- Rows.SnapshotRoundTrip: covers records written through the repository, not rows edited by other means.
- PostgresRepository.PostgresProcessingRepository.MarkSubmitted: takes an identifier within the bounds that `SubmittedOperation` enforces.
- PostgresRepository.PostgresProcessingRepository.FailProcessing: takes the expected states the processor passes, accepted alone without an attempt and otherwise planned, submitting or submitted; `CallsAllowed` proves that it passes no others.
- PostgresRepository.PostgresProcessingRepository.CompleteProcessing: takes a constructed result that names the selected backend, as the processor checks; any other would break lockstep in both repositories.
- PostgresRepository.PostgresProcessingRepository.RecordPoll: takes texts that are not blank, as `OperationStatus` and the fixed error texts are.
- PostgresRepository.PostgresProcessingRepository.MarkRecoveryRequired: takes the expected states and error texts the method itself validates.
- Constraints.EncodedDatabaseOk: reads `[[:space:]]` as the six ASCII space characters and each CHECK with two truth values; the stored rows never make one null.
- Processor.PersistentAlertProcessor.ReconcileOnce: its progress clauses hold where storage answers and the budget lasts; without that only the counts, the budget and the protocol are promised.
- Fairness.NoStarvation: assumes full passes and a clock that does not run backwards, and a record whose stamp is already past.
- Delivery.Deliver: the identifier, replay flag and error code passed along in the outcome, clock readings, signatures and the check of the secret are not modelled; the answers of the transport are a parameter.
- Delivery.RetryAgreement: what the JSON parser makes of a foreign body, parsing of UUID text and `str.isprintable` are parameters.
- PostgresRuns.PostgresRunIsRun: takes the replies from the contracts of the repository's methods, and backend names that do not consist of Unicode spaces only.
- Float inputs to the epoch normalizer are taken as the decimal their text denotes.
- Lone surrogates: strings are sequences of Unicode scalar values.
- `get_by_idempotency` and `get_attempt`, which the processor does not call.
- SQL text, locking and connection handling: each repository method is one atomic guarded transaction.
- Metrics, spans, events and context variables, which do not change durable state.
- HTTP, gRPC, query text, TLS, signatures, file and environment loading.
- SHA-256 and HMAC: digests are functions, and collision-freedom of two given preimages is a hypothesis where it is used.
- The synchronous `investigate` and `collect` helpers and the mock backend.
