# A verified model of AgentProof

AgentProof evaluates agents. Clients enqueue jobs; workers claim them, run an agent against a
seeded support environment, record a trace, score the run, store trace and result, and
acknowledge, retry or dead-letter the job; later two runs are compared. This project models
that pipeline in Dafny and proves what it is relied on for.

The files follow the program's structure. Modules are named after their files, except `TraceModel`
(`Trace`), `JobQueue` (`Queue`) and `PairedRuns` (`RunComparison`). `dafny verify dfyconfig.toml`
checks them all.

| file | models | main results |
|---|---|---|
| `Json`, `Schema` | JSON values, task contracts, the seeded support state | |
| `Services`, `SupportEnvironment` | the five tool services, as functions on states and as a class that updates in place | |
| `ServiceLaws` | | when each of the nine tool operations succeeds, what it then changes, and which error it meets otherwise |
| `SupportSafety` | | what every run of the refund, order and ticket state machine keeps |
| `Trace`, `Store`, `Redaction` | the append-only trace, the in-memory store, key-name redaction | |
| `StorageRoundTrip` | | a stored trace reads back as its redaction, whatever the order of writes |
| `Runner` | the run loop with its retries and tool calls, as a function and as the loops it is | the loops compute the function |
| `RunProperties`, `Conversation` | | the grammar of every trace; replaying a trace gives the final state; every request carries the conversation so far, and runs raise for three reasons only |
| `Contracts`, `Scoring` | contract scoring with its recursive state check; the recorded result | the check is exact; a result can be audited from the trace alone |
| `Oracle` | the reference agent | its runs miss no expected action |
| `Mutations`, `Validators`, `Judging` | the mutation generators, their composition and the validator | compositions keep verdicts and validity; the exact answer of the validator on any variant |
| `MutationLaws` | | when each generator applies and what exactly it changes |
| `NoiseSimulation`, `BoundarySimulation` | | two generators preserve the meaning of a task |
| `Comparison`, `RunComparison` | first divergence, and runs compared task by task | divergence is a longest common prefix that redaction only delays; every report and both counts say what the two executions did |
| `Agreement` | judge agreement | pairwise agreement is bounded by the plurality's share |
| `Queue`, `Worker` | the job queue and one worker, imperatively | the worker loop drains the queue and its accounts balance |
| `Delivery` | the queue with any number of clients and workers, as a transition system | no job is duplicated or lost but in one place; retries are bounded |
| `TraceLock` | the workers' writes to the SQL store, one await at a time | traces have one owner, executions one finalization, without a lock |
| `Protocol` | both together | a job done means a recorded run of its task under its version, and each execution has at most one |
| `Progress` | | the workers of the protocol finish, never wait for each other, and leave at most one job behind for each crash |
| `DeadLetters`, `Witness` | | when dead-lettered jobs have results; three runs that show the limits of the protocol |
| `VersionRace` | concurrent creation of agent versions | creation is idempotent without a lock |

Six facts about the code came out of the proofs. Each is a lemma that says exactly when it
happens, with a concrete input or run beside it.

* A failed tool call can change the state. `escalate_ticket` writes the status before it adds to
  the counter, so an escalatable ticket whose `escalation_count` is present and not a number is
  left escalated by a call that fails with a TypeError; no other failed call changes anything
  (`SupportSafety.FailedCallIsIdentityUnless`, `SupportSafety.FailedCallCanChangeState`).
* The queue's documentation promises at-least-once delivery. A failed job is acknowledged before
  it is added again or dead-lettered, and a worker that crashes in between takes the job's last
  copy away, for good; no other step of any run does (`Delivery.OnlyHandOffLoses`,
  `Delivery.LostForever`, `Witness.JobCanBeLost`).
* The first stored event of an execution is a lock that is never released. Once the attempt that
  wrote it is given up without a result, the execution never gets one and no retry of its job
  ever succeeds (`TraceLock.FinalizableIffAtWork`, `Protocol.GivenUpNeverDone`,
  `Witness.RetriesCanBeInVain`).
* A dead-lettered job's execution can have a result all the same. For an execution that one job
  names, this is so exactly when an attempt failed after its result was written: its judges
  failed, or the answer to that write was lost, which needs no judges
  (`DeadLetters.DeadAndFinalIffFailedAfterWriting`,
  `DeadLetters.UnjudgedDeadAndFinalIffAnswerLost`, `Witness.DeadLetteredYetFinal`).
* The boundary-refund generator does not look at the orders of the expected final state. A
  full-refund task that fixes the order's total there at its seeded value gets variants that
  nothing passes; for a task for one refund that something passes, not mentioning the total is
  the exact condition for its meaning to survive
  (`BoundarySimulation.MentionedTotalLosesMeaning`,
  `BoundarySimulation.MeaningKeptIffTotalUnmentioned`, `BoundarySimulation.MentionedTotalHappens`).
* The validator raises instead of answering when all mutations are contract-preserving and a
  forbidden action has a list or an object among its arguments
  (`Validators.CompositionValidates`, `Validators.ValidatorCanRaise`).

How the concurrent part is modelled: a state holds the queue, the tables and, for every worker,
where it is in `claim_and_process_one`. Each call on Redis, each look-up, insert, read and write
of traces and results, and the arrival of the answer to the last, is one step; so is the agent's run
together with the look-ups before it, and so are the judges together with the verdicts they store.
A worker may fail or crash between any two, and a run is any sequence of states linked by steps.
The results quantify over all runs. `Delivery` and `TraceLock` are proved separately; a run of
`Protocol` projects to a run of each (`Protocol.Halves`), so what they say of all runs holds of it.

That the workers finish is proved of the whole protocol, in `Progress`. A worker's attempt stores
at most 81 events, so a number that counts what is left to do drops with every step of a living
worker, on the queue or on the store, failures and crashes included, and only clients add to it.
In any run the workers take at most 169 steps for each worker and 507 for each claim that the
enqueued jobs allow; no worker ever waits for another; and they stop exactly when all are idle.
The bounds in `Delivery` count steps on the queue alone.

Conventions. An operation that updates state in place is a method proved against a function of
the state, and the theorems are about that function. Exceptions are values: `Failed` is an error
the tool proxy catches, `Escaped` one that ends the run. Functions passed as arguments (`client`,
`ids`, `clock`, `rng`, `traces`) stand for the model, fresh identifiers, timers, random draws and
the store as seen by a caller; the results hold for all of them.

## Model

| member | source | states |
|---|---|---|
| TraceLock.SingleOwner | backend/app/postgres_store.py:108-123 | in every state of every run of any number of workers, the stored events of an execution are a prefix of the redacted storage form of one single attempt, which is a completed run |
| TraceLock.SingleFinalization | backend/app/postgres_store.py:95-106 | no execution is ever finalized twice although reading and writing the row are separate steps, and a final row carries the result of the attempt whose whole trace is stored |
| TraceLock.CommitReplacesOpenRow | backend/app/postgres_store.py:102-105 | the unconditional write of a result only ever replaces a row that is still open |
| TraceLock.InsertRefinesAppend | backend/app/postgres_store.py:113-122 | the insert refuses exactly the numbers already stored, and otherwise does to an execution's stored list what the in-memory store's append does |
| TraceLock.LatecomersAreTurnedAway | runner/worker.py:52-53 | an attempt at an execution held by another attempt is at its first event, and the unique key makes it fail there |
| TraceLock.FinalIsForever | backend/app/postgres_store.py:100-101 | once an execution is final, its row and its stored trace never change again |
| TraceLock.FinalizableIffAtWork | runner/worker.py:51-56 | an execution with stored events and no result can still be finalized exactly when some worker still carries out the attempt that stored them |
| TraceLock.StepKeeps | backend/app/postgres_store.py:95-123 | every step of every worker keeps the ownership, position and finalization invariants |
| TraceLock.FinalReadsBack | backend/app/trace.py:137-172 | the stored trace of a finalized execution reads back as the redacted steps of the run whose result is recorded |
| Protocol.DoneIsAccomplished | runner/worker.py:72-93 | every job acknowledged as successful has a final execution whose result is the score of a worker's completed run of the job's task under the version the job names, with exactly that run's trace stored; its requests name that version's model and begin with its prompt and the task's input |
| Protocol.WorkerSetsUp | runner/worker.py:47-51 | a worker's run has the model and prompt of the version the job names, the input and seeded state of the task it names, twenty steps, two retries, and a client that asks for the expected actions one by one |
| Protocol.Halves | runner/worker.py:39-93 | every run of the whole protocol is a run of the queue's half and of the store's half |
| Protocol.StepKeeps | runner/worker.py:72-93 | a worker only ever carries out attempts at the execution, task and version of the entry it holds, and holds one exactly while it is inside `process_job` |
| Protocol.AcknowledgedIsDone | runner/worker.py:91-92 | a success is acknowledged only after the execution was finalized by this worker's own attempt |
| Protocol.GivenUpNeverDone | runner/worker.py:85-92 | once the attempt that holds an execution is given up, no job at that execution is ever acknowledged as done afterwards |
| Protocol.DoneOnce | runner/worker.py:91-92 | however many jobs name an execution, at most one of them is ever acknowledged as done |
| Progress.WorkersFinish | runner/worker.py:39-116 | between any two states of a run the living workers take no more steps than were left to do, plus what clients added in between |
| Progress.AllWorkBounded | runner/worker.py:39-116 | from the start of a run on, all steps of living workers are paid for by the claims the enqueued jobs allow and the number of workers |
| Progress.WorkersAloneFinish | runner/worker.py:96-116 | once clients stop, the workers take no more steps than there are left |
| Progress.StepProgresses | runner/worker.py:39-93 | every step of a living worker, on the queue or on the store, failures and crashes included, leaves less to do |
| Progress.WorkersNeverStuck | runner/worker.py:39-93 | in every state of every run the next step of each worker, whatever it is at, is possible: no worker waits for another |
| Progress.StuckIffIdle | runner/worker.py:105-116 | no worker can go on exactly when every worker is gone or free with nothing left to claim |
| Progress.WorkCanBeFinished | runner/worker.py:96-116 | from every state of every run the workers can go on until all are idle, without a crash and within the bound |
| Progress.LeftBehind | backend/app/queue.py:57-87 | when the workers stop and one of them is left, all jobs ever enqueued are done or dead-lettered, but for one at most for each worker that crashed |
| DeadLetters.DeadAndFinalIffFailedAfterWriting | runner/worker.py:55-69 | the execution of a dead-lettered job that alone names it is final exactly when an attempt at it failed after its result was written, by the lost answer to that write or by its judges |
| DeadLetters.UnjudgedDeadAndFinalIffAnswerLost | runner/worker.py:55-58 | where no worker has judges configured, it is final exactly when the answer to the write of its result was lost |
| DeadLetters.DeadAndFinalNeeds | runner/worker.py:55-69 | a dead-lettered job's execution is final only if an attempt failed after its result was written or a second job names it |
| TraceLock.FinalIffWritten | runner/worker.py:55-58 | an execution is final exactly when by then some attempt at it has written its result |
| Witness.DeadLetteredYetFinal | runner/worker.py:55-69 | with and without judges, a worker's run, with the default number of attempts, whose job is dead-lettered while its execution is final |
| Witness.RetriesCanBeInVain | runner/worker.py:85-90 | a worker's run that stores an event and fails, is turned away on both retries and ends dead-lettered with the execution open and given up |
| Witness.JobCanBeLost | backend/app/queue.py:77-86 | a worker's run that ends with no copy of the job left |
| Delivery.JobsConserved | backend/app/queue.py:57-87 | in every state of every run each job has exactly one copy among waiting, pending, handed off, done and dead-lettered, unless it is lost, and then none |
| Delivery.OnlyHandOffLoses | backend/app/queue.py:77-86 | a step takes the last copy of a job away exactly when it is the crash of a worker between the acknowledgement and the add that follows it |
| Delivery.LostForever | backend/app/queue.py:77-86 | a job without a copy has none in any later state |
| Delivery.RetriesBounded | backend/app/queue.py:78-87 | a job is claimed at most max(1, max_attempts - a + 1) times, and a dead-lettered one has used them all and is otherwise the job as enqueued |
| Delivery.HeldByOne | backend/app/queue.py:60-66 | no two workers ever hold the same job |
| Delivery.StepProgresses | runner/worker.py:72-93 | every step of a living worker on the queue lowers a natural number computed from the jobs' remaining attempts |
| Delivery.WorkersFinish | backend/app/queue.py:60-87 | any number of workers take no more queue steps in a row than that number |
| Delivery.WorkersNeverStuck | backend/app/queue.py:60-87 | on the queue's side a free worker can claim whatever is undelivered, and a worker with something in hand can always give it back |
| Delivery.StepKeeps | backend/app/queue.py:45-87 | every step keeps the bijection between jobs and copies and the attempt counts |
| JobQueue.Queue.constructor | backend/app/queue.py:46-48 | a new queue is empty and keeps its attempt limit |
| JobQueue.Queue.Enqueue | backend/app/queue.py:57-58 | adds one entry at the end of the stream |
| JobQueue.Queue.Claim | backend/app/queue.py:60-66 | hands out the oldest undelivered entry, once, and leaves it pending; nothing when there is none |
| JobQueue.Queue.Ack | backend/app/queue.py:68-69 | removes the entry from the pending ones |
| JobQueue.Queue.RetryOrDeadletter | backend/app/queue.py:71-87 | acknowledges, then re-adds with the next attempt number below the limit and dead-letters at it |
| Worker.RunWorkerLoop | runner/worker.py:96-116 | terminates; leaves nothing waiting when it has no limit; jobs are conserved, the count returned is the number of attempts used, and every job done has a final execution; each attempt succeeds exactly when it would on the store as found and no earlier attempt started at its execution, and the jobs done are those |
| Worker.FirstAttempt | runner/worker.py:39-69 | the first attempt at an execution found open and empty succeeds exactly when its run completes and its judges, if any, all give valid verdicts |
| Worker.LockedNeverSucceeds | runner/worker.py:52-53 | no attempt succeeds at an execution that is missing or holds a first event |
| Worker.ClaimAndProcessOne | runner/worker.py:72-93 | claims the first waiting job; whether it succeeds is decided by what the store holds of its execution; success acknowledges it with its execution final, failure retries or dead-letters it; a job that starts locks its execution, no other is touched and no final one changes |
| Worker.ProcessJob | runner/worker.py:39-69 | writes the run's trace up to the first duplicate and finalizes the execution with this run's score exactly when all of it was written and the execution was open; the requests it adds name the version's model and begin with its prompt and the task's input; only then stores verdicts, up to the first its schema rejects, and succeeds when none is |
| Worker.WrittenUnderVersion | runner/worker.py:47-53 | every model request a job adds to a stored trace names the model of the version the job names and begins with that version's prompt and the task's input, and the job's trace begins with one |
| Worker.JudgingMeans | runner/worker.py:58-69 | judging succeeds exactly when there are no judges or all their verdicts are within the schema's bounds, and stores nothing when a judge raises |
| Worker.StorablePrefix | backend/app/schemas.py:164-169 | what is stored is the longest prefix of verdicts within the schema's bounds |
| Worker.StoreVerdicts | runner/worker.py:59-69 | the loop over the verdicts stores those before the first invalid one |
| Worker.StoreTrace | runner/worker.py:52-53 | the append loop writes what the fold over the events writes, and stops at the first refusal |
| Worker.StaysBalanced | backend/app/queue.py:71-87 | however an attempt ends, jobs stay conserved, attempts accounted for and claims within budget |
| Worker.FirstEventLocks | backend/app/store.py:109-118 | an event list that holds number 0 turns every other attempt away whole |
| Worker.WriteAllFromEmpty | runner/worker.py:52-53 | an attempt at an empty execution stores its whole trace, redacted, in order |
| VersionRace.CreationIsIdempotent | backend/app/postgres_store.py:43-66 | under every interleaving no call breaks, and two answers are the same version exactly when the contents are equal |
| VersionRace.RaceHappens | backend/app/postgres_store.py:43-66 | a run in which two calls race, one insert is refused and both answer with the same version |
| Scoring.ScoreExecution | backend/app/execution_scoring.py:19-41 | always a result its validator accepts: errored exactly at the step limit, passed exactly when there is otherwise no evidence against the run, output never empty |
| Scoring.SnapshotShows | tool_environment/environment.py:26-27 | the state that is scored is one object with the five collections under their names |
| Scoring.ScoreIsExact | backend/app/execution_scoring.py:19-41 | the recorded evidence is exactly the unmet expectations, the forbidden actions seen and the mismatches of the final state |
| Scoring.ResultIsAuditable | backend/app/execution_scoring.py:19-41 | the recorded result is determined by the trace alone: replay, contract, evidence, token sums, and as output the answer the trace ends with or, when there is none or it is empty, the fixed placeholder |
| RunProperties.TraceGrammar | runner/runner.py:63-100 | every completed run's trace is fewer than max_steps tool turns and an answer, or exactly max_steps turns and the step-limit error, with dense numbers and earlier parents |
| RunProperties.ReplayComplete | runner/runner.py:47-111 | the final state is the replay of the recorded calls from the initial state, each recorded outcome is the replayed one, and token totals are the sums over responses |
| Conversation.RunIsTold | runner/runner.py:52-133 | in every trace, each request carries the conversation that the earlier steps make up, starting with prompt and input, and the configured model; each response and retry records what the client did at that call; tool errors, their wording and the step limit are recorded under their names; and a run raises only when the client does, the retries of a request are used up, or a call's exception is not handed back |
| Conversation.StoredRequests | runner/runner.py:52-64 | the stored, redacted trace begins with a model request, and all its requests name the model and begin with the prompt and the task's input |
| Conversation.OutcomeAdds | runner/runner.py:87-95 | the outcome of a call is told the agent under the call's id with its dumped payload |
| RunProperties.TraceNotEmpty | runner/runner.py:63-100 | a completed run has at least one trace step |
| Runner.RunTask | runner/runner.py:38-111 | the loops over steps, retries and calls compute the run function |
| Runner.DecimalIsNumeral | runner/runner.py:96-100 | numbers are written in decimal without leading zeros |
| Runner.RunTurn | runner/runner.py:63-95 | one pass of the loop body computes one turn, updating trace and environment in place |
| Runner.RequestReply | runner/runner.py:64-79 | one request step, its retries and the response step, children of the request |
| Runner.CompleteWithRetries | runner/runner.py:114-133 | the retry loop records retries 1, 2, ... and gives up with an error step past the limit |
| Runner.InvokeEach | runner/runner.py:86-95 | the requested calls are run in order, each followed by its tool message |
| Runner.InvokeTraced | runner/tool_proxy.py:29-49 | the call is recorded before it runs and its outcome after it; other exceptions escape |
| Runner.AskFrames | runner/runner.py:114-133 | asking the model touches nothing but the trace and the call counter |
| SupportSafety.RunEvolves | tool_environment/services.py:36-145 | over all call sequences, refund and replacement entries are never altered or removed, every new one is justified by the final state, orders only get cancelled, tickets only grow |
| SupportSafety.NeverCancelledAndPaid | tool_environment/services.py:36-145 | an order changed by the run is cancelled, and the run gave it neither refund nor replacement |
| SupportSafety.PolicyStable | tool_environment/services.py:83-112 | the policy answers for an order are the same in every reachable state |
| SupportSafety.IneligibleStaysUnpaid | tool_environment/services.py:52-73 | an order ineligible at the start never acquires a refund or a replacement |
| SupportSafety.FailedCallIsIdentityUnless | tool_environment/services.py:170-182 | a failed call leaves the state as it was exactly when it does not half escalate a ticket |
| SupportSafety.FailedCallCanChangeState | tool_environment/services.py:170-182 | a concrete failed call that changes the state |
| ServiceLaws.CancelOrder | tool_environment/services.py:36-50 | an order is cancelled exactly when it is the requester's own and placed, processing or shipped; then its status changes and nothing else, and every refusal has its error |
| ServiceLaws.ReplaceItem | tool_environment/services.py:52-73 | a replacement is issued exactly for an own order with that item, delivered at most 30 days ago and not replaced before; then exactly that entry is added |
| ServiceLaws.ReplaceItemErrors | tool_environment/services.py:52-73 | which error every other replacement call meets |
| ServiceLaws.CreateRefund | tool_environment/services.py:120-145 | a refund is paid exactly for an own order, delivered at most 30 days ago and not refunded before, up to its total; then exactly that entry is added, and every refusal has its error |
| ServiceLaws.UpdateTicket | tool_environment/services.py:154-168 | sets the status and appends the note, each when given; the status stays when the note cannot be added |
| ServiceLaws.EscalateTicket | tool_environment/services.py:170-182 | an open or pending ticket becomes escalated, its counter grows by one and the reason is noted, in that order; what is written stays when a later write fails |
| ServiceLaws.RefundPolicy | tool_environment/services.py:83-97 | the four fields of the answer, eligible exactly for an order delivered at most 30 days ago |
| ServiceLaws.ReplacementPolicy | tool_environment/services.py:99-112 | the three fields of the answer, eligible exactly for an order delivered at most 30 days ago |
| ServiceLaws.GetCustomer | tool_environment/services.py:16-20 | the record of the customer table under that id, or the error of looking it up |
| ServiceLaws.GetOrder | tool_environment/services.py:30-34 | the record of the order table under that id, or the error of looking it up |
| ServiceLaws.OtherTools | runner/tool_proxy.py:51-58 | any other service or operation is an unknown tool and changes nothing |
| SupportEnvironment.SupportEnvironment.constructor | tool_environment/environment.py:18-24 | the environment starts from the seeded state |
| SupportEnvironment.SupportEnvironment.Invoke | runner/tool_proxy.py:51-58 | finding and calling an operation gives the step function's state and outcome |
| SupportEnvironment.SupportEnvironment.CancelOrder | tool_environment/services.py:36-50 | in place, with the guards and errors of the order service |
| SupportEnvironment.SupportEnvironment.ReplaceItem | tool_environment/services.py:52-73 | in place, with ownership, item, duplicate and policy checks in that order |
| SupportEnvironment.SupportEnvironment.CreateRefund | tool_environment/services.py:120-145 | in place, with ownership, duplicate, policy and limit checks in that order |
| SupportEnvironment.SupportEnvironment.UpdateTicket | tool_environment/services.py:154-168 | in place, status before note, also when the note cannot be added |
| SupportEnvironment.SupportEnvironment.EscalateTicket | tool_environment/services.py:170-182 | in place, in the order the code writes, also when a later write fails |
| StorageRoundTrip.RoundTrip | backend/app/trace.py:137-172 | a trace stored in any order of its events is accepted and reads back as itself with payloads redacted; extracting calls commutes with redaction |
| StorageRoundTrip.StoredInAnyOrder | backend/app/store.py:109-118 | whatever the order of appends, the store ends with the redacted events in trace order |
| StorageRoundTrip.RedactionStable | backend/app/redaction.py:40-54 | storing a stored event again redacts nothing more |
| TraceModel.AcceptedIffReadable | backend/app/trace.py:151-172 | a stored list is accepted exactly when, sorted, its numbers are 0..n-1, parents are earlier and payloads fit their types |
| TraceModel.ReadsBackUnique | backend/app/trace.py:151-172 | an accepted list has one reading only |
| TraceModel.AcceptedPayloads | backend/app/trace.py:21-73 | which stored payloads are accepted as each event type |
| TraceModel.StoredFields | backend/app/trace.py:137-148 | the event type and the named fields each kind of step is stored with |
| TraceModel.Trace.constructor | backend/app/trace.py:103-106 | a new trace is empty |
| TraceModel.Trace.Append | backend/app/trace.py:118-135 | refuses an unknown parent, otherwise adds one step with the next number |
| TraceModel.Trace.FromStorage | backend/app/trace.py:151-172 | sorts, then reports the first fault or rebuilds every step |
| TraceModel.ParseDump | backend/app/trace.py:137-148 | a dumped payload validates back to itself |
| TraceModel.RedactDump | backend/app/redaction.py:40-43 | redacting a dumped payload dumps the redacted payload |
| TraceModel.ExtractCommutesWithRedaction | judges/contracts.py:66-73 | the calls of a redacted trace are the redacted calls |
| TraceModel.SortedIsSorted | backend/app/trace.py:151-154 | sorting orders the events and keeps them all |
| Store.PlatformStore.constructor | backend/app/store.py:63-68 | a new store is empty and consistent |
| Store.PlatformStore.CreateAgentVersion | backend/app/store.py:70-79 | idempotent on content: an existing content returns its version, a new one adds exactly one |
| Store.PlatformStore.CreateRun | backend/app/store.py:87-92 | not found without the version, otherwise one run more |
| Store.PlatformStore.CreateExecution | backend/app/store.py:94-99 | not found without the run, otherwise one pending execution more |
| Store.PlatformStore.RecordResult | backend/app/store.py:101-107 | one-way: not found, conflict on a terminal execution, otherwise exactly that execution changes |
| Store.PlatformStore.AppendTraceEvent | backend/app/store.py:109-118 | not found, conflict on a used number, otherwise the redacted event is added in order and no other list changes |
| Store.PlatformStore.AppendJudgeVerdict | backend/app/store.py:135-139 | not found, otherwise the verdict is added at the end of that execution's list and no other list changes |
| Store.AppendedKeeps | backend/app/store.py:112-117 | an accepted append keeps the list strictly ascending and adds exactly the redacted event |
| Redaction.EightNamesRedacted | backend/app/redaction.py:26-54 | a value under one of the eight names, in any letter case, becomes the placeholder, and any other value is redacted in its turn |
| Redaction.RedactKernel | backend/app/redaction.py:46-54 | two values redact alike exactly when they differ under sensitive keys only |
| Redaction.RedactIdempotent | backend/app/redaction.py:46-54 | redacting twice is redacting once |
| Redaction.RedactedIsClean | backend/app/redaction.py:46-54 | nothing readable is left under a sensitive key at any depth |
| Redaction.CleanIffFixed | backend/app/redaction.py:46-54 | redaction leaves a value alone exactly when it is clean |
| Contracts.DiffFinalState | judges/contracts.py:86-109 | reports exactly the failing paths, each once, and nothing exactly when the expected tree is contained in the actual one |
| Contracts.ContainsIffNothingFails | judges/contracts.py:86-109 | containment holds exactly when no path fails |
| Contracts.MismatchesFail | judges/contracts.py:86-109 | the recursion collects exactly the failing positions of the two whole trees |
| Contracts.ContainsReflexive | judges/contracts.py:86-109 | containment is reflexive |
| Contracts.ContainsTransitive | judges/contracts.py:86-109 | containment is transitive |
| Contracts.ContainsAntisymmetric | judges/contracts.py:86-109 | containment is antisymmetric, so a partial order |
| Contracts.ScoreActions | judges/contracts.py:30-63 | the evidence lists are exact and the verdict is the contract |
| Contracts.MatchingMeans | judges/contracts.py:38-54 | an expected action is met, and a forbidden one seen, exactly when some call has its service, its operation and all its argument pairs |
| Contracts.UnmetInOrder | judges/contracts.py:38-45 | unmet expectations are listed in the order of the task |
| Contracts.SeenInOrder | judges/contracts.py:47-54 | so are forbidden actions that were seen |
| Contracts.UnmetMembers | judges/contracts.py:38-45 | an action is listed as missing exactly when it is expected and no call matches it |
| Contracts.SeenMembers | judges/contracts.py:47-54 | a forbidden action is listed exactly when some call matches it |
| Contracts.PassSurvivesEnlargement | judges/contracts.py:86-109 | a pass survives any enlargement of the final state |
| Oracle.OracleMakesExpectedCalls | runner/reference_agent.py:25-42 | the reference run makes the expected calls as far as the step limit allows, and exceeds it exactly when there are at least that many |
| Oracle.OracleTraceLength | runner/runner.py:63-100 | the reference run's trace has four steps for each expected action and three for the answer, or four for each allowed step and one for the error |
| Oracle.OracleOutput | runner/reference_agent.py:42 | the reference run reports no tokens and, within the step limit, ends with its one answer |
| Oracle.RepliesInOrder | runner/reference_agent.py:30-42 | the k-th reply asks for the k-th action under the id ck, and the later ones answer |
| Oracle.OracleMissesNothing | runner/reference_agent.py:25-42 | no expected action is missing when there are no more than max_steps, accepted by the tools or not |
| Oracle.ReferenceAgent.Complete | runner/reference_agent.py:30-42 | walks the expected actions in order, then keeps answering |
| MutationLaws.BoundaryLaw | benchmark/mutations.py:185-243 | the boundary generator applies exactly to tasks whose first expected refund asks for the whole seeded total of an order; total, expected amount, mentioned refund and forbidden amounts one cent above grow by 1 to 200 cents and nothing else changes |
| MutationLaws.BoundaryVariantKeepsMeaning | benchmark/mutations.py:185-243 | the variant generated for a full-refund task judges the sequences with raised refunds as the task judges the originals |
| MutationLaws.NoiseLaw | benchmark/mutations.py:120-151 | noise applies whenever there is an entity, and writes one of four fixed field-value pairs on one existing customer, order or ticket |
| MutationLaws.MissingCustomerLaw | benchmark/mutations.py:154-182 | appends one forbidden look-up of a decoy from CUST-900 to CUST-999 and rewords the input |
| MutationLaws.TextKinds | benchmark/mutations.py:46-117 | the text mutations reword the input and change nothing else; a distractor always applies |
| MutationLaws.Labels | benchmark/mutations.py:46-243 | every variant names its parent and its kind, has the id of the task with the kind's infix and the seed, and two more tags; one that does not apply is the task itself |
| MutationLaws.CompositionGoesStepByStep | benchmark/mutations.py:280-309 | a composition goes from task to task, each the variant of the one before |
| Mutations.ComposeMutations | benchmark/mutations.py:280-309 | applies the mutations in order and stops at the first that does not apply, with the task reached so far |
| NoiseSimulation.NoisePreservesMeaning | benchmark/mutations.py:120-151 | on a task and its noisy variant every call succeeds or fails alike, final states agree up to the noise field, and verdicts agree when the contract does not mention it |
| NoiseSimulation.RunAlike | tool_environment/services.py:12-182 | whole call sequences on states equal up to noise |
| NoiseSimulation.StepAlike | tool_environment/services.py:12-182 | one call on states equal up to noise |
| BoundarySimulation.BoundaryPreservesMeaning | benchmark/mutations.py:185-243 | a call sequence passes a full-refund task exactly when the sequence with its refund amounts on that order shifted passes the variant |
| BoundarySimulation.MentionedTotalLosesMeaning | benchmark/mutations.py:224-243 | if the expected final state of a full-refund task fixes the order's total at its seeded value, no call sequence passes any variant with another total |
| BoundarySimulation.MeaningKeptIffTotalUnmentioned | benchmark/mutations.py:185-243 | a task that asks for one full refund and that something passes keeps its meaning in a variant exactly when it does not mention the order's total |
| BoundarySimulation.MentionedTotalHappens | benchmark/mutations.py:224-230 | a concrete such task, passed by a concrete sequence |
| BoundarySimulation.RunShifted | tool_environment/services.py:120-145 | whole call sequences and their shifted forms keep the two states shifted |
| BoundarySimulation.OutcomesShifted | tool_environment/services.py:120-145 | each call and its shifted form fail with the same error or both succeed |
| Validators.CompositionPreservesVerdict | benchmark/mutations.py:280-309 | any composition of contract-preserving mutations judges every call sequence as the original task does |
| Validators.CompositionValidates | benchmark/validators.py:30-66 | on a successful composition of any mutations of a well-formed task the validator refuses exactly a taken id, raises exactly when all mutations are contract-preserving and a forbidden argument is unhashable, and accepts otherwise |
| Validators.VariantAnswer | benchmark/validators.py:30-82 | the answer on an arbitrary variant: accepted exactly when well named, with existing entities and, if its mutations must keep it, the parent's contract; raised exactly when a list or an object is looked up or hashed |
| Validators.IdsAcceptedIffExist | benchmark/validators.py:53-55 | the id checks, which may raise on the way, accept exactly when every named entity exists |
| Validators.ValidatorCanRaise | benchmark/validators.py:76-82 | a well-formed task on which the validator raises |
| Validators.PreservingMutation | benchmark/validators.py:76-82 | a contract-preserving mutation changes the state by noise at most and the contract not at all |
| Validators.MutateKeepsValid | benchmark/validators.py:69-73 | every generator keeps actions valid and referenced ids existing |
| Comparison.FirstDivergence | backend/app/comparison.py:100-130 | the least index where the projections differ, with its type and both payloads, or the end of the shorter trace with both lengths, or none |
| Comparison.AttributionIsFirst | backend/app/comparison.py:100-130 | up to the reported index the traces are alike; there two events differ and are shown, or the shorter trace ends |
| Comparison.DivergenceTypes | backend/app/comparison.py:133-151 | the condition on types and payloads for each kind of divergence |
| Comparison.DivergenceIsProjection | backend/app/comparison.py:133-151 | not diverging is equality of a projection, hence an equivalence; the type is symmetric |
| Comparison.NoneIffSame | backend/app/comparison.py:100-130 | there is no divergence exactly when projections and lengths agree |
| Comparison.SwapKeepsDivergence | backend/app/comparison.py:100-130 | swapping the runs keeps place and type and swaps the evidence |
| Comparison.Ultrametric | backend/app/comparison.py:100-130 | two traces cannot diverge before both have diverged from a third |
| Comparison.RedactionOnlyDelays | backend/app/comparison.py:100-151 | redaction only delays the first divergence, and one that stays keeps its type exactly when redaction hides no difference of tools there |
| Comparison.RedactedDivergence | backend/app/comparison.py:133-151 | the same for two events |
| Comparison.NamedToolsShow | backend/app/comparison.py:142-146 | tools named by strings are never hidden |
| Comparison.ToolCanBeHidden | backend/app/comparison.py:142-148 | a concrete pair of calls whose divergence changes its type under redaction |
| Comparison.HiddenIffAgree | backend/app/redaction.py:46-54 | stored payloads are equal exactly when the originals agree off sensitive keys |
| PairedRuns.CompareRuns | backend/app/comparison.py:22-61 | refuses duplicates and disjoint runs, otherwise one result per shared task in order, regressions attributed, changes counted |
| PairedRuns.ComparisonReports | backend/app/comparison.py:22-97 | every result says of its two executions whether the task regressed, improved or stayed, with the attribution exactly on regressions and both deltas; the two counts are the numbers of shared tasks that went from passed to failed and from failed to passed |
| PairedRuns.LessMeans | backend/app/comparison.py:25 | results are in Python's order of task ids |
| PairedRuns.RoundsToEight | backend/app/comparison.py:94-97 | a cost delta is the nearest multiple of 0.00000001, the even one of two |
| PairedRuns.ByTask | backend/app/comparison.py:64-73 | an index of the executions exactly when no task occurs twice |
| PairedRuns.PairUp | backend/app/comparison.py:34-53 | disposition, latency and cost deltas and, for a regression only, the first divergence of the two traces |
| PairedRuns.RoundIsOdd | backend/app/comparison.py:94-97 | rounding a cost delta commutes with changing its sign |
| PairedRuns.SwapRuns | backend/app/comparison.py:22-61 | comparing the other way round lists the same tasks, exchanges regressions and improvements and negates the deltas |
| Agreement.AgreeingIsChooseEach | judges/agreement.py:58-65 | the agreeing pairs are, summed over the labels, c(c-1)/2 |
| Agreement.PairwiseRateMeaning | judges/agreement.py:58-65 | the rate of two or more judges is that sum over n(n-1)/2 |
| Agreement.PairCount | judges/agreement.py:63-65 | n judges make n(n-1)/2 pairs |
| Agreement.PairwiseAtMostAgreement | judges/agreement.py:27-65 | the pairwise rate is at most the plurality's share |
| Agreement.PairwiseOneIffNoDisagreement | judges/agreement.py:27-65 | the pairwise rate is 1 exactly when the default threshold raises no disagreement, and exactly when the judges are unanimous |
| Agreement.SummaryMeaning | judges/agreement.py:27-55 | the rate is the share of a most frequent label, and the consensus is the label that beats all others, if one does |
| Agreement.NoVerdicts | judges/agreement.py:40-61 | no verdicts have no summary and no disagreeing pair |
| Agreement.OrderIrrelevant | judges/agreement.py:27-65 | neither measure depends on the order of the verdicts |

## Left out

- Redis, SQLAlchemy, FastAPI and the frontend: the queue is a stream with a pending set, the store tables with unique keys. Pending entries are not redelivered, as the queue's documentation says. A database call is one atomic step that may be followed by a failure.
- Writers other than the workers, in `TraceLock` and `Protocol`: the HTTP routes can append events and record results too, and are not modelled.
- `ensure_group`, `serve_forever`, block times, consumer names, the back-off delay and the dead-letter entry's error text.
- Judges, rubrics and the response parser: what the judges say is a parameter. `Protocol` keeps no verdict table; where judges are configured, judging is one step after finalization that may raise.
- Floating point, the latency a run measures and timestamps: token counts and cents are integers, agreement rates and cost deltas exact reals, with `round` half to even. The constant cost a worker records is left out.
- SHA-256: the content of a version stands for its hash.
- Fresh UUIDs are parameters; nothing is assumed of them beyond what a contract requires.
- Python's `True` and `1` are one value, strings are sequences of characters, and comparing two strings or two lists by order is an error here where Python would order them.
- Object identity: states are values, so that a run's copy of the seeded state shares nothing with the original needs no proof here.
- Key order of objects: an object is a finite map. State mismatches are therefore recorded as a set, and the order of the keys of a result is not modelled. Mismatch paths and mutation types are sequences instead of joined strings; the values a mismatch message quotes are not kept.
- Reflection in `_resolve` beyond the public operations of the five services, ill-typed collections, and the validation leniencies of pydantic (coercions).
- Random streams and the wording of the text mutations: a draw is any choice in its range, a text mutation any new input text. `Fair` says that draws are in range.
- `flag_disagreements`, `task_registry_from`, serialization, gold labels, HTTP routes, pagination, load tests and scripts: they would only add easy members.
- `PostgresStore` reads (`get_trace`, `get_execution`) are modelled as reading the state; pagination and joins are not.
- Mutations.ComposeMutations: a boundary refund on an order whose total is missing or no number, or whose id in the action is a list or an object, does not apply in the model, where the code raises.
- Runner.RunTask: the model client is a function of the number of the call. The messages it is sent are those of the request step; the version's config, which is sent along, is not recorded by the code and not modelled.
- BoundarySimulation.BoundaryPreservesMeaning: exact in the order's total only. The other conditions, which make the task one for a single full refund, are what the property is stated for and are not shown to be necessary.
- TraceLock.SingleOwner: an attempt may be any completed run of its task. That a worker uses the reference agent, the default limits and the version its job names is a condition of `Protocol`.
- Delivery.WorkersFinish: counts steps on the queue only; the steps of `process_job` between them are counted in `Progress`.
- Progress.WorkersFinish: the agent's run, with the look-ups before it, and the judges, with the verdicts they store, are one step each; that they end by themselves is `Runner.RunTask` and `Worker.StoreVerdicts`.
- Progress.LeftBehind: says nothing when every worker has crashed, since then jobs can be waiting with nobody to claim them.
