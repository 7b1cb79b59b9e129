/** The bulk-transaction queue wrapper: `enqueue` persists a bulk_payments_transaction
    row in status INITIALISED and then adds a job that carries that row; the
    consumer's 'failed' handler marks the row FAILED and merges the failure into
    its meta; the 'completed' handler only logs. */
module BulkTransaction {
  import opened Common

  datatype TransactionStatus = Initialised | Failed | Completed

  /** A bulk_payments_transaction row; `meta` is `None` when the column is null. */
  datatype BulkTransactionRecord = BulkTransactionRecord(
    id: nat,
    userId: string,
    amount: int,
    nWorkers: int,
    status: TransactionStatus,
    meta: Option<map<string, Json>>)

  datatype Payload = Payload(userId: string, amount: int, nWorkers: int, bulkTransactionRequest: Json)

  /** A job's data: the created row as it was when the job was added, and the request. */
  datatype JobData = JobData(bulkTransactionRecord: BulkTransactionRecord, bulkTransactionRequest: Json)

  datatype Job = Job(id: nat, name: string, data: JobData)

  datatype EnqueueResult = EnqueueResult(jobId: nat, createdBulkTransactionRecord: BulkTransactionRecord)

  const FailureServer: string := "server"
  const FailureSource: string := "Bulk Transaction Queue Processor"

  /** The row `enqueue` inserts, once the table has given it its id. */
  function InitialRecord(id: nat, payload: Payload): BulkTransactionRecord
  {
    BulkTransactionRecord(id, payload.userId, payload.amount, payload.nWorkers, Initialised, None)
  }

  /** `{...meta}`: spreading null gives no keys. */
  function Spread(meta: Option<map<string, Json>>): map<string, Json>
  {
    if meta.Some? then meta.value else map[]
  }

  /** `{...meta, failure_server, failure_source, failure_reason}`. */
  function FailureMeta(meta: Option<map<string, Json>>, message: string): (m: map<string, Json>)
    ensures m.Keys == Spread(meta).Keys + {"failure_server", "failure_source", "failure_reason"}
    ensures m["failure_server"] == JStr(FailureServer)
    ensures m["failure_source"] == JStr(FailureSource)
    ensures m["failure_reason"] == JStr(message)
    ensures forall k :: k in Spread(meta) && k !in {"failure_server", "failure_source", "failure_reason"} ==>
      m[k] == Spread(meta)[k]
  {
    Spread(meta)["failure_server" := JStr(FailureServer)]["failure_source" := JStr(FailureSource)]["failure_reason" := JStr(message)]
  }

  /** The table after the 'failed' handler ran for `job`: the job's row, if it is
      still in the table, becomes FAILED with the failure merged into the meta of
      the job's snapshot of the row; its other columns and all other rows are kept. */
  function FailedRows(rows: map<nat, BulkTransactionRecord>, job: Job, message: string): (r: map<nat, BulkTransactionRecord>)
    ensures r.Keys == rows.Keys
    ensures forall k :: k in rows && k != job.data.bulkTransactionRecord.id ==> r[k] == rows[k]
    ensures var id := job.data.bulkTransactionRecord.id;
      id in rows ==>
        && r[id].status == Failed
        && r[id].meta == Some(FailureMeta(job.data.bulkTransactionRecord.meta, message))
        && r[id].(status := rows[id].status, meta := rows[id].meta) == rows[id]
  {
    var snapshot := job.data.bulkTransactionRecord;
    if snapshot.id in rows
    then rows[snapshot.id := rows[snapshot.id].(status := Failed, meta := Some(FailureMeta(snapshot.meta, message)))]
    else rows
  }

  /** The handler merges from the job's snapshot, so running it again for the
      same job and error gives the same table. */
  lemma FailedRowsIdempotent(rows: map<nat, BulkTransactionRecord>, job: Job, message: string)
    ensures FailedRows(FailedRows(rows, job, message), job, message) == FailedRows(rows, job, message)
  {
  }

  /** What the row's meta held in the table before the failure does not matter:
      only the snapshot carried by the job is merged. */
  lemma FailedRowsUseSnapshot(rows: map<nat, BulkTransactionRecord>, job: Job, message: string, current: Option<map<string, Json>>)
    requires job.data.bulkTransactionRecord.id in rows
    ensures var id := job.data.bulkTransactionRecord.id;
      FailedRows(rows[id := rows[id].(meta := current)], job, message) == FailedRows(rows, job, message)
  {
  }

  /** A row created by `enqueue` whose job then fails is left FAILED, with the
      three failure keys as its whole meta. */
  lemma EnqueuedThenFailed(rows: map<nat, BulkTransactionRecord>, id: nat, payload: Payload, jobId: nat, jobName: string, message: string)
    ensures var row := InitialRecord(id, payload);
      var failed := FailedRows(rows[id := row], Job(jobId, jobName, JobData(row, payload.bulkTransactionRequest)), message);
      && failed[id].status == Failed
      && failed[id].meta == Some(map["failure_server" := JStr(FailureServer), "failure_source" := JStr(FailureSource), "failure_reason" := JStr(message)])
      && failed[id].userId == payload.userId && failed[id].amount == payload.amount && failed[id].nWorkers == payload.nWorkers
  {
  }

  /** Failure of a row whose meta is {note: "batch-7"} with error "gateway timeout". */
  lemma FailureMergeExample()
    ensures FailureMeta(Some(map["note" := JStr("batch-7")]), "gateway timeout") ==
      map["note" := JStr("batch-7"), "failure_server" := JStr("server"),
          "failure_source" := JStr("Bulk Transaction Queue Processor"), "failure_reason" := JStr("gateway timeout")]
  {
  }

  /** The bulk_payments_transaction table: ids are handed out in increasing order. */
  class TransactionTable {
    var rows: map<nat, BulkTransactionRecord>
    var nextId: nat

    ghost predicate Valid()
      reads this
    {
      forall k :: k in rows ==> k < nextId && rows[k].id == k
    }

    constructor ()
      ensures Valid() && rows == map[]
    {
      rows := map[];
      nextId := 0;
    }

    /** insertRecord: the new row gets a fresh id and is returned. `failure` is the
        database's answer: when the insert is rejected nothing is written and the
        error is thrown. */
    method Insert(userId: string, amount: int, nWorkers: int, status: TransactionStatus, failure: Option<string>)
      returns (r: Result<BulkTransactionRecord>)
      requires Valid()
      modifies this
      ensures Valid()
      ensures failure.Some? ==> r == Err(failure.value) && rows == old(rows) && nextId == old(nextId)
      ensures failure.None? ==>
        && r == Ok(BulkTransactionRecord(old(nextId), userId, amount, nWorkers, status, None))
        && old(nextId) !in old(rows)
        && rows == old(rows)[old(nextId) := r.value]
    {
      if failure.Some? {
        return Err(failure.value);
      }
      var created := BulkTransactionRecord(nextId, userId, amount, nWorkers, status, None);
      rows := rows[nextId := created];
      nextId := nextId + 1;
      return Ok(created);
    }
  }

  class BulkTransactionQWrapper {
    /** The jobs added to the queue, oldest first. */
    var queue: seq<Job>
    var nextJobId: nat

    ghost predicate Valid()
      reads this
    {
      forall i :: 0 <= i < |queue| ==> queue[i].id < nextJobId
    }

    constructor ()
      ensures Valid() && queue == []
    {
      queue := [];
      nextJobId := 0;
    }

    /** Inserts exactly one INITIALISED row, then adds one job carrying that row
        and the request. `insertError` is the database's answer to the insert:
        when it fails, nothing is written, no job is added and the error
        propagates. `addError` is the queue's answer to the add: when it fails,
        the row has already been written and the error propagates. */
    method Enqueue(table: TransactionTable, jobName: string, payload: Payload, insertError: Option<string>, addError: Option<string>)
      returns (r: Result<EnqueueResult>)
      requires Valid() && table.Valid()
      modifies this, table
      ensures Valid() && table.Valid()
      ensures insertError.Some? ==>
        && r == Err(insertError.value)
        && table.rows == old(table.rows) && table.nextId == old(table.nextId)
        && queue == old(queue)
      ensures insertError.None? ==>
        && old(table.nextId) !in old(table.rows)
        && table.rows == old(table.rows)[old(table.nextId) := InitialRecord(old(table.nextId), payload)]
      ensures insertError.None? && addError.Some? ==> r == Err(addError.value) && queue == old(queue)
      ensures insertError.None? && addError.None? ==>
        var created := InitialRecord(old(table.nextId), payload);
        && r == Ok(EnqueueResult(old(nextJobId), created))
        && queue == old(queue) + [Job(old(nextJobId), jobName, JobData(created, payload.bulkTransactionRequest))]
        && (forall i :: 0 <= i < |old(queue)| ==> old(queue)[i].id != r.value.jobId)
    {
      var inserted := table.Insert(payload.userId, payload.amount, payload.nWorkers, Initialised, insertError);
      if inserted.Err? {
        return Err(inserted.message);
      }
      var createdBulkTransactionRecord := inserted.value;
      if addError.Some? {
        return Err(addError.value);
      }
      var addedJob := Job(nextJobId, jobName, JobData(createdBulkTransactionRecord, payload.bulkTransactionRequest));
      queue := queue + [addedJob];
      nextJobId := nextJobId + 1;
      return Ok(EnqueueResult(addedJob.id, createdBulkTransactionRecord));
    }
  }

  /** The consumer's 'failed' handler. */
  method OnFailed(table: TransactionTable, job: Job, errorMessage: string)
    requires table.Valid()
    modifies table
    ensures table.Valid() && table.nextId == old(table.nextId)
    ensures table.rows == FailedRows(old(table.rows), job, errorMessage)
  {
    var bulkTransactionRecord := job.data.bulkTransactionRecord;
    var meta := bulkTransactionRecord.meta;
    if bulkTransactionRecord.id in table.rows {
      var current := table.rows[bulkTransactionRecord.id];
      table.rows := table.rows[bulkTransactionRecord.id := current.(status := Failed, meta := Some(FailureMeta(meta, errorMessage)))];
    }
  }

  /** The consumer's 'completed' handler: it only logs. */
  method OnCompleted(table: TransactionTable, job: Job)
    ensures table.rows == old(table.rows) && table.nextId == old(table.nextId)
  {
  }
}
