# Microtask assignment, consensus counts and payment job handlers

This project models, in Dafny, the server-side core of a crowdsourcing platform
where workers complete microtasks of larger tasks and are paid through an
external payment gateway:

- `microtasks.dfy` (module `Microtasks`): the microtask and microtask_assignment
  queries. These cover which microtasks of a task a worker may be handed,
  completed-assignment counts, whether a worker has outstanding work, distinct
  and matching response counts, and marking a microtask complete. Each table is
  a sequence of rows. The queries are functions over those sequences. A count is
  tied to its reference meaning: the set of row positions that pass the WHERE
  clause. `MicrotaskTable` holds the microtask table that `markComplete` updates
  in place.
- `registration.dfy` (module `Registration`): the payment-account registration
  job. It resolves the worker's gateway contact id, reusing a stored
  `payments_meta.contacts_id`. It builds a bank or vpa fund-account request from
  the account type, writes `fund_id` and clears `meta` on success, and on failure
  records `failure_reason` in the job's in-memory copy of the account. The
  gateway is represented by the reply it gives to each request. Every request
  sent is appended to a log, so the model can state which requests were made.
  `RegistrationProcessor` holds the worker and payments_account tables and that
  log. Its methods run the steps in program order and are proved against the
  functions `ResolveContact`, `SaveFundsId` and `ProcessRegistration`.
- `bulk_transaction.dfy` (module `BulkTransaction`): the bulk-transaction queue
  wrapper. `Enqueue` inserts an INITIALISED bulk_payments_transaction row and
  then appends a job to the queue. `OnFailed` marks the job's row FAILED and
  merges three failure keys into the meta of the job's snapshot of the row.
  `OnCompleted` changes nothing.
- `common.dfy` (module `Common`): `Option`, `Result` (a value or a thrown
  error's message) and the JSON values stored in `meta` columns. These include
  JavaScript truthiness and property reads that throw on null or undefined.

The model follows the code in these points, which a reader might not expect:

- The registration job never sets an account's status of its own: on failure
  the update at processor.ts:35 is commented out, so only the in-memory `meta`
  changes, and on success it writes back whatever status the job's snapshot holds.
- On success the job writes the job's whole snapshot of the account
  (`...accountRecord`), with `fund_id` set and `meta` emptied.
- The failure handler merges into the meta of the job's snapshot, not into the
  row's current meta.
- Response counts include assignments of every status.
- The quota subquery keeps only microtasks that have at least one counted
  assignment, because the HAVING clause applies only to existing groups. So when
  `maxAssignments` is 0 or negative, a microtask with no counted assignment is
  still offered.

## Model

| member | source | states |
|---|---|---|
| `Microtasks.CountIsRowsWhere` | server/common/src/db/models/MicrotaskModel.ts:47-50 | a row count equals the number of row positions that pass the filter |
| `Microtasks.CountPositive` | server/common/src/db/models/MicrotaskModel.ts:59-63 | a count is positive exactly when some row passes the filter |
| `Microtasks.MaxAssignedMicrotasks` | server/common/src/db/models/MicrotaskModel.ts:22-26 | an id is in the quota subquery exactly when its microtask has at least one non-SKIPPED/EXPIRED assignment and at least `maxAssignments` of them |
| `Microtasks.WorkerAssignedMicrotasks` | server/common/src/db/models/MicrotaskModel.ts:28-30 | an id is in the worker subquery exactly when some assignment, of any status, gives that microtask to the worker |
| `Microtasks.FilterMicrotasks` | server/common/src/db/models/MicrotaskModel.ts:32-37 | the result holds exactly the rows of the task that are not COMPLETED and whose id is in neither excluded set |
| `Microtasks.AssignableMicrotasks` | server/common/src/db/models/MicrotaskModel.ts:17-40 | every returned microtask belongs to the task and is not COMPLETED; it has no counted assignment or fewer than `maxAssignments`; the worker never had it; and every microtask meeting all these conditions is returned |
| `Microtasks.AssignableBelowQuota` | server/common/src/db/models/MicrotaskModel.ts:22-35 | with `maxAssignments >= 1`, a returned microtask has fewer than `maxAssignments` non-SKIPPED/EXPIRED assignments |
| `Microtasks.QuotaOneExcludesHeld` | server/common/src/db/models/MicrotaskModel.ts:22-35 | with a quota of 1, a microtask that any worker holds in a counted status is never returned |
| `Microtasks.DefaultQuotaExcludesNothing` | server/common/src/db/models/MicrotaskModel.ts:17-37 | under the default quota `Number.MAX_SAFE_INTEGER` and fewer assignment rows than that, a microtask is returned exactly when it belongs to the task, is not COMPLETED and was never given to the worker |
| `Microtasks.NonPositiveQuotaKeepsUnclaimed` | server/common/src/db/models/MicrotaskModel.ts:22-26 | with `maxAssignments <= 0`, an incomplete microtask with no counted assignment that the worker never had is still returned |
| `Microtasks.QuotaExample` | server/common/src/db/models/MicrotaskModel.ts:22-37 | a microtask with two COMPLETED assignments is offered to no worker under a quota of 2 |
| `Microtasks.CompletedAssignmentsCount` | server/common/src/db/models/MicrotaskModel.ts:46-52 | the completed count never exceeds the number of non-SKIPPED/EXPIRED assignments of the microtask |
| `Microtasks.CompletedAssignmentsCountMeaning` | server/common/src/db/models/MicrotaskModel.ts:47-50 | the count is the number of the microtask's assignment rows in status COMPLETED or VERIFIED |
| `Microtasks.CompletedAssignmentsCountGrows` | server/common/src/db/models/MicrotaskModel.ts:47-50 | adding a COMPLETED assignment raises the microtask's count by exactly one |
| `Microtasks.HasIncompleteMicrotasks` | server/common/src/db/models/MicrotaskModel.ts:58-64 | true exactly when some assignment of the worker has status ASSIGNED |
| `Microtasks.MarkedComplete` | server/common/src/db/models/MicrotaskModel.ts:70-72 | every row with the id becomes COMPLETED with its other fields kept; all other rows are unchanged |
| `Microtasks.MarkCompleteIdempotent` | server/common/src/db/models/MicrotaskModel.ts:71 | marking a microtask complete twice gives the same table as marking it once |
| `Microtasks.MarkedCompleteNotAssignable` | server/common/src/db/models/MicrotaskModel.ts:34 | once marked complete, a microtask is returned to no worker |
| `Microtasks.MicrotaskTable.MarkComplete` | server/common/src/db/models/MicrotaskModel.ts:70-72 | the table's rows become the marked-complete table |
| `Microtasks.UniqueResponseCount` | server/common/src/db/models/MicrotaskModel.ts:78-84 | the number of distinct non-null data values is at most the number of non-null responses, and zero exactly when there is none |
| `Microtasks.ResponseValuesBound` | server/common/src/db/models/MicrotaskModel.ts:80 | there are no more distinct response values than assignments with a non-null response |
| `Microtasks.MaxGroupUpTo` | server/common/src/db/models/MicrotaskModel.ts:88 | the running maximum bounds every group size seen so far and is either 0 or the size of one of those groups |
| `Microtasks.MaxGroupPositive` | server/common/src/db/models/MicrotaskModel.ts:88 | the maximum group size is positive exactly when some non-null response exists |
| `Microtasks.MatchingResponseCount` | server/common/src/db/models/MicrotaskModel.ts:86-92 | null when there is no non-null response; otherwise the size of the largest group of equal data values, attained by some value |
| `Microtasks.MatchingAtMostAssignments` | server/common/src/db/models/MicrotaskModel.ts:86-92 | a non-null matching count is between 1 and the microtask's number of assignments |
| `Microtasks.ConsensusExample` | server/common/src/db/models/MicrotaskModel.ts:78-92 | responses "yes", "yes", "no" give 2 distinct values and a largest group of 2 |
| `Registration.StoredContactsId` | server/backend/src/Queue/Registration/consumer/processor.ts:54-58 | a contact id is found exactly when `payments_meta` is an object with a truthy `contacts_id` key, and it is that key's value |
| `Registration.ResolveContact` | server/backend/src/Queue/Registration/consumer/processor.ts:46-77 | a missing worker fails with the not-found message and makes no request; a stored id is returned with no request; otherwise exactly one contact request {name = worker id, contact = phone number, type = "worker"} is sent; a created id replaces `payments_meta` with {contacts_id} and is returned; a failed request changes nothing; no other worker and no other worker field changes |
| `Registration.ResolvedContactIsStored` | server/backend/src/Queue/Registration/consumer/processor.ts:70-76 | a successfully resolved non-empty contact id is the one a later resolution finds stored |
| `Registration.ResolveContactIdempotent` | server/backend/src/Queue/Registration/consumer/processor.ts:54-76 | resolving the same worker twice sends at most one contact request and returns the same id both times |
| `Registration.BuildFundAccountRequest` | server/backend/src/Queue/Registration/consumer/processor.ts:87-105 | 'bank_account' gives a bank request with `meta.name`, `account_details.id` and `account_details.ifsc`; any other type gives a vpa request with `account_details.id`; both carry the contacts id; a null or undefined `account_details` throws the TypeError for reading `id` |
| `Registration.RegisteredAccount` | server/backend/src/Queue/Registration/consumer/processor.ts:116-122 | the written account has the fund id and an empty meta, and keeps the snapshot's other fields |
| `Registration.SaveFundsId` | server/backend/src/Queue/Registration/consumer/processor.ts:84-125 | an unbuildable request is never sent; otherwise exactly one fund-account request is sent; success happens exactly when the gateway creates the account, and the account row is then the registered snapshot; a gateway failure is rethrown with the upstream description and writes nothing |
| `Registration.WithFailureReason` | server/backend/src/Queue/Registration/consumer/processor.ts:30-34 | the in-memory meta gains `failure_reason` = prefix + message, and every other key and field is kept |
| `Registration.ProcessRegistration` | server/backend/src/Queue/Registration/consumer/processor.ts:15-37 | contact resolution runs first; if it fails, no fund-account request is made; any failure leaves the accounts unchanged and annotates only the in-memory record; a fund id is stored only on the job's account, only after a successful fund-account reply; after a successful contact step, the accounts, the requests sent and the caught error are exactly those of the fund step run with the resolved contact id |
| `Registration.HandlerNeverPersistsFailure` | server/backend/src/Queue/Registration/consumer/processor.ts:35 | the handler never sets a status of its own: each account's status afterwards is its old status or, on success, the snapshot's status written back |
| `Registration.RetryAfterFundFailure` | server/backend/src/Queue/Registration/consumer/processor.ts:15-37 | a retry after a fund-account failure sends no second contact request, and stores the fund id once the gateway creates the fund account |
| `Registration.RegistrationProcessor.GetContactsId` | server/backend/src/Queue/Registration/consumer/processor.ts:46-77 | the worker table, the request log and the result are those given by `ResolveContact`; the accounts are untouched |
| `Registration.RegistrationProcessor.CreateAndSaveFundsId` | server/backend/src/Queue/Registration/consumer/processor.ts:84-125 | the account table, the request log and the result are those given by `SaveFundsId`; the workers are untouched |
| `Registration.RegistrationProcessor.Process` | server/backend/src/Queue/Registration/consumer/processor.ts:15-37 | both tables, the request log and the job's account record are those given by `ProcessRegistration` |
| `BulkTransaction.FailureMeta` | server/backend/src/Queue/BulkTransaction/BulkTransactionQWrapper.ts:58-71 | every key of the prior meta other than the three failure keys is kept; `failure_server` = 'server', `failure_source` = 'Bulk Transaction Queue Processor', `failure_reason` = the error message |
| `BulkTransaction.FailedRows` | server/backend/src/Queue/BulkTransaction/BulkTransactionQWrapper.ts:61-72 | only the row with the job record's id changes; it becomes FAILED with the merged meta and keeps its other columns |
| `BulkTransaction.FailedRowsIdempotent` | server/backend/src/Queue/BulkTransaction/BulkTransactionQWrapper.ts:58-72 | running the failure handler twice with the same job and error gives the same table |
| `BulkTransaction.FailedRowsUseSnapshot` | server/backend/src/Queue/BulkTransaction/BulkTransactionQWrapper.ts:58-59 | the result does not depend on the row's current meta, only on the job's snapshot |
| `BulkTransaction.EnqueuedThenFailed` | server/backend/src/Queue/BulkTransaction/BulkTransactionQWrapper.ts:28-72 | a row created by enqueue whose job fails ends FAILED, with the three failure keys as its meta and its user, amount and worker count kept |
| `BulkTransaction.FailureMergeExample` | server/backend/src/Queue/BulkTransaction/BulkTransactionQWrapper.ts:66-71 | {note: "batch-7"} with error "gateway timeout" becomes the note plus the three failure keys |
| `BulkTransaction.TransactionTable.Insert` | server/backend/src/Queue/BulkTransaction/BulkTransactionQWrapper.ts:28-33 | when the database accepts the insert, exactly one row is added, under a fresh id, with the given fields; when it rejects it, nothing is written and the error is thrown |
| `BulkTransaction.BulkTransactionQWrapper.Enqueue` | server/backend/src/Queue/BulkTransaction/BulkTransactionQWrapper.ts:27-42 | a rejected insert throws its error and leaves the table and the queue unchanged; otherwise exactly one INITIALISED row with the payload's user, amount and worker count is inserted, even when the queue add then fails; on success one job is appended carrying that row and the request, under a job id no earlier job has; the result is the job id and the created row |
| `BulkTransaction.OnFailed` | server/backend/src/Queue/BulkTransaction/BulkTransactionQWrapper.ts:54-74 | the table becomes `FailedRows` of the old table; ids are still handed out in order |
| `BulkTransaction.OnCompleted` | server/backend/src/Queue/BulkTransaction/BulkTransactionQWrapper.ts:49-51 | no row changes |

## Left out

- Concurrency is not modelled. This covers the race between reading assignable microtasks and inserting an assignment, parallel queue workers, and the un-awaited `updateSingle` promises at processor.ts:70 and :116. Every write happens in program order.
- The SQL and JSON text processing is not modelled. This covers `output::json ->> 'data'` and the `havingRaw` string interpolation. Each assignment's output data is given directly as an optional string.
- The node-postgres driver returns `count` as a string. The model returns the count as a number.
- The three microtask queries take ids, not whole task and worker records, because only the ids are read. `maxAssignments` is an integer; its default, `Number.MAX_SAFE_INTEGER`, is the constant `DefaultMaxAssignments`. Fractional values are not modelled.
- Razorpay HTTP calls are not modelled. Each call becomes the reply the gateway gives: a created id, an HTTP error (client message and `error.description`), or no response. A rejection body without `error.description` is not modelled.
- Record lookups are not modelled beyond their outcome. `getSingle` either finds the worker or throws, and the thrown message is replaced by the not-found message as in the source.
- Database updates are assumed to succeed: a rejected `updateSingle` is not modelled, and one that matches no row is treated as a no-op. The insert in `enqueue` and the worker lookup do model failure.
- `meta` of a payments account is assumed to be a JSON object. A null `meta`, which would make the failure branch throw, is not modelled.
- JSON numbers are integers, and property reads on strings (such as `length`) are not modelled.
- bullmq internals are not modelled: the queue is a sequence of jobs with increasing ids. This leaves out `intialiseQueue`, `onStart`, `close`, the retry policy and logging.
- `setupDbConnection` and the logger are not modelled.
- `amount` and `n_workers` are stored as integers, not as their `toString()` text.
- A freshly inserted bulk_payments_transaction row has a null `meta`, because `enqueue` gives no value for that column. Database defaults are not known.
- `Registration.ResolvedContactIsStored` and `Registration.ResolveContactIdempotent` assume the gateway never returns an empty contact id. An empty id is falsy in JavaScript, so it would not be reused and a second contact request would follow.
