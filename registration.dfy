/** The payment-account registration job of the backend queue consumer: resolve
    the worker's payment-gateway contact, register a fund account for it, and
    store the fund id on the payments_account row. The payment gateway is
    represented by the reply it gives to each request; every request sent is
    appended to a log so that the model can say which requests were made. */
module Registration {
  import opened Common

  type Id = string

  datatype Worker = Worker(id: Id, phoneNumber: Option<string>, paymentsMeta: Json)

  /** A payments_account row. `status` is carried through unchanged by this job. */
  datatype PaymentsAccount = PaymentsAccount(
    id: Id,
    workerId: Id,
    accountType: string,
    fundId: Option<string>,
    status: string,
    meta: map<string, Json>)

  datatype ContactsRequest = ContactsRequest(name: Id, contact: Option<string>, contactType: string)

  /** The body of a fund-account request; a field read from `meta` that is
      `undefined` is `None`. */
  datatype FundAccountRequest =
    | BankAccountRequest(contactsId: Json, name: Option<Json>, accountNumber: Option<Json>, ifsc: Option<Json>)
    | VpaRequest(contactsId: Json, address: Option<Json>)

  /** What the gateway answers to one request: the created entity's id, an HTTP
      error response (the client error's `message` and the response body's
      `error.description`), or no response at all (only a client `message`). */
  datatype GatewayReply =
    | Created(id: string)
    | Rejected(message: string, description: string)
    | Unreachable(message: string)

  datatype GatewayCall = ContactCall(contactsRequest: ContactsRequest) | FundAccountCall(fundAccountRequest: FundAccountRequest)

  const WorkerNotFoundMessage: string := "Could not find worker record with given id in accounts record"

  const FailurePrefix: string := "Failure inside Registration Account Queue Processor at box | "

  /** The contact id already stored on the worker: `payments_meta.contacts_id`
      when both it and `payments_meta` are truthy. */
  function StoredContactsId(w: Worker): (c: Option<Json>)
    ensures c.Some? <==> w.paymentsMeta.JObj? && "contacts_id" in w.paymentsMeta.fields && Truthy(w.paymentsMeta.fields["contacts_id"])
    ensures c.Some? ==> Truthy(c.value)
    ensures c.Some? ==> w.paymentsMeta.JObj? && "contacts_id" in w.paymentsMeta.fields && w.paymentsMeta.fields["contacts_id"] == c.value
  {
    if !Truthy(w.paymentsMeta) then None
    else match Member(w.paymentsMeta, "contacts_id")
      case Some(c) => if Truthy(c) then Some(c) else None
      case None => None
  }

  // ---------------------------------------------------------------------------
  // getContactsID (processor.ts:46-77)

  datatype ContactStep = ContactStep(result: Result<Json>, workers: map<Id, Worker>, calls: seq<GatewayCall>)

  /** The effect of getContactsID on the worker table and the gateway. */
  function ResolveContact(workers: map<Id, Worker>, workerId: Id, reply: GatewayReply): (s: ContactStep)
    // a missing worker record is reported before anything else happens
    ensures workerId !in workers ==> s == ContactStep(Err(WorkerNotFoundMessage), workers, [])
    // a stored contact id is returned without any request to the gateway
    ensures workerId in workers && StoredContactsId(workers[workerId]).Some? ==>
      s == ContactStep(Ok(StoredContactsId(workers[workerId]).value), workers, [])
    // otherwise exactly one contact request, keyed by the worker id and phone number
    ensures workerId in workers && StoredContactsId(workers[workerId]).None? ==>
      s.calls == [ContactCall(ContactsRequest(workerId, workers[workerId].phoneNumber, "worker"))]
    // only the resolved worker can change, and only in its payments_meta
    ensures s.workers.Keys == workers.Keys
    ensures forall k :: k in workers && k != workerId ==> s.workers[k] == workers[k]
    ensures workerId in workers ==> s.workers[workerId].(paymentsMeta := workers[workerId].paymentsMeta) == workers[workerId]
    // a freshly created contact id replaces payments_meta as a whole and is returned
    ensures s.calls != [] && s.result.Ok? ==>
      reply.Created? && s.result.value == JStr(reply.id) &&
      s.workers[workerId].paymentsMeta == JObj(map["contacts_id" := JStr(reply.id)])
    // a failed contact request changes nothing and surfaces the client's message
    ensures s.calls != [] && s.result.Err? ==> !reply.Created? && s.result.message == reply.message && s.workers == workers
  {
    if workerId !in workers then ContactStep(Err(WorkerNotFoundMessage), workers, [])
    else
      var worker := workers[workerId];
      var stored := StoredContactsId(worker);
      if stored.Some? then ContactStep(Ok(stored.value), workers, [])
      else
        var calls := [ContactCall(ContactsRequest(workerId, worker.phoneNumber, "worker"))];
        match reply
        case Created(id) =>
          ContactStep(Ok(JStr(id)), workers[workerId := worker.(paymentsMeta := JObj(map["contacts_id" := JStr(id)]))], calls)
        case Rejected(message, _) => ContactStep(Err(message), workers, calls)
        case Unreachable(message) => ContactStep(Err(message), workers, calls)
  }

  /** The contact id a successful resolution returns is the one later
      resolutions find stored, unless the gateway handed out an empty id. */
  lemma ResolvedContactIsStored(workers: map<Id, Worker>, workerId: Id, reply: GatewayReply)
    requires reply.Created? ==> reply.id != ""
    requires ResolveContact(workers, workerId, reply).result.Ok?
    ensures var s := ResolveContact(workers, workerId, reply);
      StoredContactsId(s.workers[workerId]) == Some(s.result.value)
  {
  }

  /** Resolving the same worker twice makes at most one contact request, and
      both resolutions give the same contact id. */
  lemma ResolveContactIdempotent(workers: map<Id, Worker>, workerId: Id, reply1: GatewayReply, reply2: GatewayReply)
    requires reply1.Created? ==> reply1.id != ""
    requires ResolveContact(workers, workerId, reply1).result.Ok?
    ensures var s1 := ResolveContact(workers, workerId, reply1);
      var s2 := ResolveContact(s1.workers, workerId, reply2);
      s2.calls == [] && s2.workers == s1.workers && s2.result == s1.result && |s1.calls + s2.calls| <= 1
  {
  }

  // ---------------------------------------------------------------------------
  // createAndSaveFundsId (processor.ts:84-125)

  /** The `account_details` value in the account's meta (`None` is `undefined`). */
  function AccountDetails(record: PaymentsAccount): Option<Json>
  {
    Member(JObj(record.meta), "account_details")
  }

  /** The fund-account request for an account: a bank request for account type
      'bank_account', a vpa request for any other type. Reading `.id` of an
      `account_details` that is null or undefined throws a TypeError. */
  function BuildFundAccountRequest(record: PaymentsAccount, contactsId: Json): (r: Result<FundAccountRequest>)
    ensures r.Err? <==> AccountDetails(record).None? || AccountDetails(record) == Some(JNull)
    ensures r.Err? ==> r.message == ReadError(AccountDetails(record).Some?, "id")
    ensures r.Ok? ==> r.value.contactsId == contactsId
    ensures r.Ok? ==> (r.value.BankAccountRequest? <==> record.accountType == "bank_account")
    ensures r.Ok? && r.value.BankAccountRequest? ==>
      && r.value.name == Member(JObj(record.meta), "name")
      && r.value.accountNumber == Member(AccountDetails(record).value, "id")
      && r.value.ifsc == Member(AccountDetails(record).value, "ifsc")
    ensures r.Ok? && r.value.VpaRequest? ==> r.value.address == Member(AccountDetails(record).value, "id")
  {
    var details := AccountDetails(record);
    if record.accountType == "bank_account" then
      var name := Member(JObj(record.meta), "name");
      match Read(details, "id")
      case Err(message) => Err(message)
      case Ok(accountNumber) =>
        match Read(details, "ifsc")
        case Err(message) => Err(message)
        case Ok(ifsc) => Ok(BankAccountRequest(contactsId, name, accountNumber, ifsc))
    else
      match Read(details, "id")
      case Err(message) => Err(message)
      case Ok(address) => Ok(VpaRequest(contactsId, address))
  }

  /** The error message of a failed fund-account request: the upstream
      description, or, with no response at all, the TypeError of reading
      `e.response.data`. */
  function FundAccountError(reply: GatewayReply): string
    requires !reply.Created?
  {
    match reply
    case Rejected(_, description) => description
    case Unreachable(_) => ReadError(false, "data")
  }

  /** The account row written after a successful fund-account request: the
      job's snapshot of the row, with the fund id set and meta emptied. */
  function RegisteredAccount(record: PaymentsAccount, fundId: string): (a: PaymentsAccount)
    ensures a.fundId == Some(fundId) && a.meta == map[]
    ensures a.id == record.id && a.workerId == record.workerId && a.accountType == record.accountType
    ensures a.status == record.status
  {
    record.(fundId := Some(fundId), meta := map[])
  }

  datatype FundStep = FundStep(result: Result<string>, accounts: map<Id, PaymentsAccount>, calls: seq<GatewayCall>)

  /** The effect of createAndSaveFundsId on the account table and the gateway. */
  function SaveFundsId(accounts: map<Id, PaymentsAccount>, record: PaymentsAccount, contactsId: Json, reply: GatewayReply): (s: FundStep)
    // a request that cannot be built is never sent
    ensures BuildFundAccountRequest(record, contactsId).Err? ==>
      s == FundStep(Err(BuildFundAccountRequest(record, contactsId).message), accounts, [])
    ensures BuildFundAccountRequest(record, contactsId).Ok? ==>
      s.calls == [FundAccountCall(BuildFundAccountRequest(record, contactsId).value)]
    // success exactly when the request was sent and the gateway created the fund account
    ensures s.result.Ok? <==> BuildFundAccountRequest(record, contactsId).Ok? && reply.Created?
    ensures s.result.Ok? ==> s.result.value == reply.id
    ensures s.result.Ok? ==>
      s.accounts == if record.id in accounts then accounts[record.id := RegisteredAccount(record, reply.id)] else accounts
    // a gateway failure is rethrown with the upstream description; nothing is written
    ensures BuildFundAccountRequest(record, contactsId).Ok? && !reply.Created? ==>
      s.result == Err(FundAccountError(reply))
    ensures s.result.Err? ==> s.accounts == accounts
  {
    match BuildFundAccountRequest(record, contactsId)
    case Err(message) => FundStep(Err(message), accounts, [])
    case Ok(request) =>
      var calls := [FundAccountCall(request)];
      if !reply.Created? then FundStep(Err(FundAccountError(reply)), accounts, calls)
      else
        // updateSingle writes nothing when no row has the record's id
        var written := if record.id in accounts then accounts[record.id := RegisteredAccount(record, reply.id)] else accounts;
        FundStep(Ok(reply.id), written, calls)
  }

  // ---------------------------------------------------------------------------
  // The job handler (processor.ts:15-37)

  /** The state after one registration job: the two tables, the requests sent,
      the job's in-memory account record and the message of the caught error. */
  datatype Outcome = Outcome(
    workers: map<Id, Worker>,
    accounts: map<Id, PaymentsAccount>,
    calls: seq<GatewayCall>,
    record: PaymentsAccount,
    error: Option<string>)

  /** The in-memory account record after the handler caught an error. */
  function WithFailureReason(record: PaymentsAccount, message: string): (r: PaymentsAccount)
    ensures r.meta.Keys == record.meta.Keys + {"failure_reason"}
    ensures r.meta["failure_reason"] == JStr(FailurePrefix + message)
    ensures forall k :: k in record.meta && k != "failure_reason" ==> r.meta[k] == record.meta[k]
    ensures r.(meta := record.meta) == record
  {
    record.(meta := record.meta["failure_reason" := JStr(FailurePrefix + message)])
  }

  function ProcessRegistration(
    workers: map<Id, Worker>, accounts: map<Id, PaymentsAccount>, record: PaymentsAccount,
    contactReply: GatewayReply, fundReply: GatewayReply): (o: Outcome)
    // the contact step runs first, on the account's worker
    ensures o.workers == ResolveContact(workers, record.workerId, contactReply).workers
    // when contact resolution fails, no fund-account request is made
    ensures ResolveContact(workers, record.workerId, contactReply).result.Err? ==>
      o.accounts == accounts && o.calls == ResolveContact(workers, record.workerId, contactReply).calls &&
      o.error == Some(ResolveContact(workers, record.workerId, contactReply).result.message)
    // after a successful contact step the fund step runs with the resolved id; its
    // writes and requests are the handler's, and its error is the one caught
    ensures var c := ResolveContact(workers, record.workerId, contactReply);
      c.result.Ok? ==>
        var f := SaveFundsId(accounts, record, c.result.value, fundReply);
        && o.accounts == f.accounts
        && o.calls == c.calls + f.calls
        && o.error == (if f.result.Err? then Some(f.result.message) else None)
    // a failure persists nothing on the account; it only annotates the in-memory record
    ensures o.error.Some? ==> o.accounts == accounts && o.record == WithFailureReason(record, o.error.value)
    ensures o.error.None? ==> o.record == record
    // a fund id is stored only on the job's account, and only from a successful fund-account reply
    ensures o.accounts.Keys == accounts.Keys
    ensures forall k :: k in accounts && o.accounts[k] != accounts[k] ==>
      k == record.id && o.error.None? && fundReply.Created? && o.accounts[k] == RegisteredAccount(record, fundReply.id)
    ensures o.error.None? ==> fundReply.Created? && o.calls != [] && o.calls[|o.calls| - 1].FundAccountCall?
  {
    var contact := ResolveContact(workers, record.workerId, contactReply);
    match contact.result
    case Err(message) => Outcome(contact.workers, accounts, contact.calls, WithFailureReason(record, message), Some(message))
    case Ok(contactsId) =>
      var fund := SaveFundsId(accounts, record, contactsId, fundReply);
      var calls := contact.calls + fund.calls;
      match fund.result
      case Err(message) => Outcome(contact.workers, accounts, calls, WithFailureReason(record, message), Some(message))
      case Ok(_) => Outcome(contact.workers, fund.accounts, calls, record, None)
  }

  /** The handler never sets a status of its own: an account's status is either
      what it was or, on success, the status of the job's snapshot written back. */
  lemma HandlerNeverPersistsFailure(
    workers: map<Id, Worker>, accounts: map<Id, PaymentsAccount>, record: PaymentsAccount,
    contactReply: GatewayReply, fundReply: GatewayReply, k: Id)
    requires k in accounts
    ensures var o := ProcessRegistration(workers, accounts, record, contactReply, fundReply);
      o.accounts[k].status == accounts[k].status || o.accounts[k].status == record.status
  {
  }

  /** A retried job, after a first run that resolved the contact but failed at
      the fund-account step, makes no second contact request and, when the
      gateway now creates the fund account, stores its id on the account. */
  lemma RetryAfterFundFailure(
    workers: map<Id, Worker>, accounts: map<Id, PaymentsAccount>, record: PaymentsAccount,
    contactReply: GatewayReply, fundReply1: GatewayReply, fid: string)
    requires contactReply.Created? ==> contactReply.id != ""
    requires record.id in accounts
    requires ResolveContact(workers, record.workerId, contactReply).result.Ok?
    requires BuildFundAccountRequest(record, ResolveContact(workers, record.workerId, contactReply).result.value).Ok?
    ensures var o1 := ProcessRegistration(workers, accounts, record, contactReply, fundReply1);
      var o2 := ProcessRegistration(o1.workers, o1.accounts, record, contactReply, Created(fid));
      && (forall i :: 0 <= i < |o2.calls| ==> !o2.calls[i].ContactCall?)
      && o2.error.None?
      && o2.accounts[record.id].fundId == Some(fid)
  {
  }

  // ---------------------------------------------------------------------------
  // The processor, step by step over the worker and payments_account tables

  /** The job: its data holds the account record, which the handler annotates in place. */
  class RegistrationJob {
    var accountRecord: PaymentsAccount

    constructor (accountRecord: PaymentsAccount)
      ensures this.accountRecord == accountRecord
    {
      this.accountRecord := accountRecord;
    }
  }

  /** The tables the processor touches and the log of requests it sent to the gateway. */
  class RegistrationProcessor {
    var workers: map<Id, Worker>
    var accounts: map<Id, PaymentsAccount>
    var calls: seq<GatewayCall>

    constructor (workers: map<Id, Worker>, accounts: map<Id, PaymentsAccount>)
      ensures this.workers == workers && this.accounts == accounts && calls == []
    {
      this.workers := workers;
      this.accounts := accounts;
      calls := [];
    }

    method GetContactsId(workerId: Id, reply: GatewayReply) returns (r: Result<Json>)
      modifies this
      ensures var s := ResolveContact(old(workers), workerId, reply);
        r == s.result && workers == s.workers && calls == old(calls) + s.calls
      ensures accounts == old(accounts)
    {
      if workerId !in workers {
        return Err(WorkerNotFoundMessage);
      }
      var worker := workers[workerId];
      var stored := StoredContactsId(worker);
      if stored.Some? {
        return Ok(stored.value);
      }
      var request := ContactsRequest(workerId, worker.phoneNumber, "worker");
      calls := calls + [ContactCall(request)];
      if !reply.Created? {
        return Err(reply.message);
      }
      workers := workers[workerId := worker.(paymentsMeta := JObj(map["contacts_id" := JStr(reply.id)]))];
      return Ok(JStr(reply.id));
    }

    method CreateAndSaveFundsId(record: PaymentsAccount, contactsId: Json, reply: GatewayReply) returns (r: Result<string>)
      modifies this
      ensures var s := SaveFundsId(old(accounts), record, contactsId, reply);
        r == s.result && accounts == s.accounts && calls == old(calls) + s.calls
      ensures workers == old(workers)
    {
      var request := BuildFundAccountRequest(record, contactsId);
      if request.Err? {
        return Err(request.message);
      }
      calls := calls + [FundAccountCall(request.value)];
      if !reply.Created? {
        return Err(FundAccountError(reply));
      }
      if record.id in accounts {
        accounts := accounts[record.id := RegisteredAccount(record, reply.id)];
      }
      return Ok(reply.id);
    }

    /** The default job handler: it never rethrows. */
    method Process(job: RegistrationJob, contactReply: GatewayReply, fundReply: GatewayReply)
      modifies this, job
      ensures var o := ProcessRegistration(old(workers), old(accounts), old(job.accountRecord), contactReply, fundReply);
        workers == o.workers && accounts == o.accounts && calls == old(calls) + o.calls && job.accountRecord == o.record
    {
      var accountRecord := job.accountRecord;
      var failure: Option<string> := None;
      var contactsId := GetContactsId(accountRecord.workerId, contactReply);
      if contactsId.Err? {
        failure := Some(contactsId.message);
      } else {
        var fundsId := CreateAndSaveFundsId(accountRecord, contactsId.value, fundReply);
        if fundsId.Err? {
          failure := Some(fundsId.message);
        }
      }
      if failure.Some? {
        var updatedRecordMeta := job.accountRecord.meta;
        updatedRecordMeta := updatedRecordMeta["failure_reason" := JStr(FailurePrefix + failure.value)];
        job.accountRecord := job.accountRecord.(meta := updatedRecordMeta);
      }
    }
  }
}
