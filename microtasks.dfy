/** The microtask and microtask_assignment queries of the assignment resolver and
    the consensus tracker. Each table is a sequence of rows; each SQL query is a
    filter, group or count over those rows. The `data` field of an assignment's
    JSON `output` is taken directly as an optional string. */
module Microtasks {
  import opened Common

  type Id = string

  datatype MicrotaskStatus = Incomplete | Completed

  datatype AssignmentStatus = Assigned | Skipped | Expired | Completed | Verified

  datatype Microtask = Microtask(id: Id, taskId: Id, status: MicrotaskStatus)

  datatype Assignment = Assignment(
    microtaskId: Id,
    workerId: Id,
    status: AssignmentStatus,
    data: Option<string>)

  /** The default `maxAssignments`: JavaScript's Number.MAX_SAFE_INTEGER. */
  const DefaultMaxAssignments: int := 9007199254740991

  // ---------------------------------------------------------------------------
  // Counting rows: SQL COUNT(*) over the rows a WHERE clause keeps

  /** The positions of the rows satisfying `p`: the reference meaning of a count. */
  ghost function RowsWhere<T>(rows: seq<T>, p: T -> bool): set<int>
  {
    set i | 0 <= i < |rows| && p(rows[i])
  }

  /** The number of rows satisfying `p`. */
  function Count<T>(rows: seq<T>, p: T -> bool): (n: nat)
    ensures n <= |rows|
  {
    if rows == [] then 0
    else Count(rows[..|rows| - 1], p) + (if p(rows[|rows| - 1]) then 1 else 0)
  }

  /** Count agrees with the number of row positions the filter keeps. */
  lemma {:induction false} CountIsRowsWhere<T>(rows: seq<T>, p: T -> bool)
    ensures Count(rows, p) == |RowsWhere(rows, p)|
  {
    if rows != [] {
      var k := |rows| - 1;
      var init := rows[..k];
      CountIsRowsWhere(init, p);
      var extra: set<int> := if p(rows[k]) then {k} else {};
      assert RowsWhere(rows, p) == RowsWhere(init, p) + extra by {
        forall i | 0 <= i < k ensures rows[i] == init[i] { }
      }
      assert RowsWhere(init, p) !! extra;
    }
  }

  /** A count is positive exactly when some row satisfies the filter. */
  lemma {:induction false} CountPositive<T>(rows: seq<T>, p: T -> bool)
    ensures Count(rows, p) > 0 <==> exists i :: 0 <= i < |rows| && p(rows[i])
  {
    if rows != [] {
      var k := |rows| - 1;
      CountPositive(rows[..k], p);
      if exists i :: 0 <= i < k && p(rows[..k][i]) {
        var i :| 0 <= i < k && p(rows[..k][i]);
        assert p(rows[i]);
      }
      if exists i :: 0 <= i < |rows| && p(rows[i]) {
        var i :| 0 <= i < |rows| && p(rows[i]);
        if i < k { assert rows[..k][i] == rows[i]; }
      }
    }
  }

  /** A filter that keeps fewer rows gives a smaller count. */
  lemma {:induction false} CountMonotone<T>(rows: seq<T>, p: T -> bool, q: T -> bool)
    requires forall x :: p(x) ==> q(x)
    ensures Count(rows, p) <= Count(rows, q)
  {
    if rows != [] {
      CountMonotone(rows[..|rows| - 1], p, q);
    }
  }

  // ---------------------------------------------------------------------------
  // getAssignableMicrotasks (MicrotaskModel.ts:17-40)

  /** An assignment that occupies a slot of its microtask's quota. */
  predicate OccupiesQuota(a: Assignment, microtaskId: Id)
  {
    a.microtaskId == microtaskId && a.status != Skipped && a.status != Expired
  }

  /** The number of assignments of a microtask whose status is neither SKIPPED nor EXPIRED. */
  function QuotaCount(assignments: seq<Assignment>, microtaskId: Id): nat
  {
    Count(assignments, (a: Assignment) => OccupiesQuota(a, microtaskId))
  }

  /** The grouped query keeps a microtask when its group exists (at least one
      counted assignment) and that group's count reaches `maxAssignments`. */
  predicate AtQuota(assignments: seq<Assignment>, microtaskId: Id, maxAssignments: int)
  {
    QuotaCount(assignments, microtaskId) > 0 && QuotaCount(assignments, microtaskId) >= maxAssignments
  }

  /** Some assignment of any status hands the microtask to the worker. */
  predicate SeenBy(assignments: seq<Assignment>, microtaskId: Id, workerId: Id)
  {
    exists i :: 0 <= i < |assignments| && assignments[i].microtaskId == microtaskId && assignments[i].workerId == workerId
  }

  /** The three conditions of the final query, for one microtask row. */
  predicate Assignable(assignments: seq<Assignment>, m: Microtask, taskId: Id, workerId: Id, maxAssignments: int)
  {
    && m.taskId == taskId
    && m.status != MicrotaskStatus.Completed
    && !AtQuota(assignments, m.id, maxAssignments)
    && !SeenBy(assignments, m.id, workerId)
  }

  /** The first subquery: ids of the microtasks that have reached the quota. */
  function MaxAssignedMicrotasks(assignments: seq<Assignment>, maxAssignments: int): (ids: set<Id>)
    ensures forall id :: id in ids <==> AtQuota(assignments, id, maxAssignments)
  {
    var ids := set a | a in assignments && OccupiesQuota(a, a.microtaskId)
                         && QuotaCount(assignments, a.microtaskId) >= maxAssignments :: a.microtaskId;
    forall id ensures id in ids <==> AtQuota(assignments, id, maxAssignments) {
      CountPositive(assignments, (a: Assignment) => OccupiesQuota(a, id));
    }
    ids
  }

  /** The second subquery: ids of the microtasks the worker has been handed. */
  function WorkerAssignedMicrotasks(assignments: seq<Assignment>, workerId: Id): (ids: set<Id>)
    ensures forall id :: id in ids <==> SeenBy(assignments, id, workerId)
  {
    set a | a in assignments && a.workerId == workerId :: a.microtaskId
  }

  /** The rows of `microtasks`, in order, that belong to the task, are not
      completed and whose ids lie in neither excluded set. */
  function FilterMicrotasks(microtasks: seq<Microtask>, taskId: Id, full: set<Id>, seen: set<Id>): (r: seq<Microtask>)
    ensures |r| <= |microtasks|
    ensures forall m :: m in r <==>
      m in microtasks && m.taskId == taskId && m.status != MicrotaskStatus.Completed && m.id !in full && m.id !in seen
  {
    if microtasks == [] then []
    else
      var m := microtasks[0];
      var rest := FilterMicrotasks(microtasks[1..], taskId, full, seen);
      if m.taskId == taskId && m.status != MicrotaskStatus.Completed && m.id !in full && m.id !in seen
      then [m] + rest
      else rest
  }

  /** The microtasks of a task that may be handed to a worker: not completed,
      below the quota of assignments that are neither SKIPPED nor EXPIRED, and
      never handed to this worker, in whatever status. */
  function AssignableMicrotasks(
    microtasks: seq<Microtask>, assignments: seq<Assignment>,
    taskId: Id, workerId: Id, maxAssignments: int): (r: seq<Microtask>)
    ensures forall m :: m in r ==> m in microtasks && m.taskId == taskId
    ensures forall m :: m in r ==> m.status != MicrotaskStatus.Completed
    ensures forall m :: m in r ==> QuotaCount(assignments, m.id) == 0 || QuotaCount(assignments, m.id) < maxAssignments
    ensures forall m :: m in r ==> !SeenBy(assignments, m.id, workerId)
    ensures forall m :: m in microtasks && Assignable(assignments, m, taskId, workerId, maxAssignments) ==> m in r
  {
    FilterMicrotasks(microtasks, taskId,
      MaxAssignedMicrotasks(assignments, maxAssignments),
      WorkerAssignedMicrotasks(assignments, workerId))
  }

  /** With a quota of at least one, no returned microtask has reached the quota. */
  lemma AssignableBelowQuota(
    microtasks: seq<Microtask>, assignments: seq<Assignment>,
    taskId: Id, workerId: Id, maxAssignments: int, m: Microtask)
    requires maxAssignments >= 1
    requires m in AssignableMicrotasks(microtasks, assignments, taskId, workerId, maxAssignments)
    ensures QuotaCount(assignments, m.id) < maxAssignments
  {
  }

  /** With a quota of one, a microtask that any worker holds in a counted status
      (ASSIGNED, COMPLETED or VERIFIED) is never returned. */
  lemma {:induction false} QuotaOneExcludesHeld(
    microtasks: seq<Microtask>, assignments: seq<Assignment>,
    taskId: Id, workerId: Id, i: int)
    requires 0 <= i < |assignments|
    requires assignments[i].status != Skipped && assignments[i].status != Expired
    ensures forall m :: m in AssignableMicrotasks(microtasks, assignments, taskId, workerId, 1) ==>
      m.id != assignments[i].microtaskId
  {
    var id := assignments[i].microtaskId;
    CountPositive(assignments, (a: Assignment) => OccupiesQuota(a, id));
  }

  /** When the quota is not positive, a microtask with no counted assignment
      still forms no group in the HAVING query and so is not excluded. */
  lemma NonPositiveQuotaKeepsUnclaimed(
    microtasks: seq<Microtask>, assignments: seq<Assignment>,
    taskId: Id, workerId: Id, maxAssignments: int, m: Microtask)
    requires maxAssignments <= 0
    requires m in microtasks && m.taskId == taskId && m.status == Incomplete
    requires QuotaCount(assignments, m.id) == 0 && !SeenBy(assignments, m.id, workerId)
    ensures m in AssignableMicrotasks(microtasks, assignments, taskId, workerId, maxAssignments)
  {
  }

  /** Under the default quota, Number.MAX_SAFE_INTEGER, the quota subquery excludes
      nothing while the assignment table holds fewer rows than that: a microtask
      is returned exactly when it belongs to the task, is not COMPLETED and was
      never given to the worker. */
  lemma DefaultQuotaExcludesNothing(
    microtasks: seq<Microtask>, assignments: seq<Assignment>,
    taskId: Id, workerId: Id, m: Microtask)
    requires |assignments| < DefaultMaxAssignments
    requires m in microtasks
    ensures m in AssignableMicrotasks(microtasks, assignments, taskId, workerId, DefaultMaxAssignments) <==>
      m.taskId == taskId && m.status != MicrotaskStatus.Completed && !SeenBy(assignments, m.id, workerId)
  {
    assert QuotaCount(assignments, m.id) <= |assignments|;
  }

  // ---------------------------------------------------------------------------
  // getCompletedAssignmentsCount (MicrotaskModel.ts:46-52)

  predicate IsCompletedFor(a: Assignment, microtaskId: Id)
  {
    a.microtaskId == microtaskId && (a.status == AssignmentStatus.Completed || a.status == Verified)
  }

  /** The number of assignments of a microtask in status COMPLETED or VERIFIED. */
  function CompletedAssignmentsCount(assignments: seq<Assignment>, microtaskId: Id): (n: nat)
    ensures n <= QuotaCount(assignments, microtaskId)
  {
    CountMonotone(assignments, (a: Assignment) => IsCompletedFor(a, microtaskId),
                               (a: Assignment) => OccupiesQuota(a, microtaskId));
    Count(assignments, (a: Assignment) => IsCompletedFor(a, microtaskId))
  }

  /** The count is the number of COMPLETED or VERIFIED rows of the microtask. */
  lemma CompletedAssignmentsCountMeaning(assignments: seq<Assignment>, microtaskId: Id)
    ensures CompletedAssignmentsCount(assignments, microtaskId)
         == |set i | 0 <= i < |assignments| && IsCompletedFor(assignments[i], microtaskId)|
  {
    var p := (a: Assignment) => IsCompletedFor(a, microtaskId);
    CountIsRowsWhere(assignments, p);
    assert RowsWhere(assignments, p) == set i | 0 <= i < |assignments| && IsCompletedFor(assignments[i], microtaskId);
  }

  /** Recording a submission (a new COMPLETED row) raises the count by one. */
  lemma CompletedAssignmentsCountGrows(assignments: seq<Assignment>, a: Assignment)
    requires a.status == AssignmentStatus.Completed
    ensures CompletedAssignmentsCount(assignments + [a], a.microtaskId)
         == CompletedAssignmentsCount(assignments, a.microtaskId) + 1
  {
  }

  // ---------------------------------------------------------------------------
  // hasIncompleteMicrotasks (MicrotaskModel.ts:58-64)

  /** Whether the worker holds some assignment still in status ASSIGNED. */
  function HasIncompleteMicrotasks(assignments: seq<Assignment>, workerId: Id): (b: bool)
    ensures b <==> exists i :: 0 <= i < |assignments| && assignments[i].workerId == workerId && assignments[i].status == Assigned
  {
    var p := (a: Assignment) => a.workerId == workerId && a.status == Assigned;
    CountPositive(assignments, p);
    Count(assignments, p) > 0
  }

  // ---------------------------------------------------------------------------
  // markComplete (MicrotaskModel.ts:70-72)

  /** The microtask table after `UPDATE microtask SET status = 'COMPLETED' WHERE id = ...`. */
  function MarkedComplete(microtasks: seq<Microtask>, id: Id): (r: seq<Microtask>)
    ensures |r| == |microtasks|
    ensures forall i :: 0 <= i < |r| ==>
      r[i] == if microtasks[i].id == id then microtasks[i].(status := MicrotaskStatus.Completed) else microtasks[i]
  {
    if microtasks == [] then []
    else
      var m := microtasks[0];
      [if m.id == id then m.(status := MicrotaskStatus.Completed) else m] + MarkedComplete(microtasks[1..], id)
  }

  /** Marking the same microtask twice is the same as marking it once. */
  lemma MarkCompleteIdempotent(microtasks: seq<Microtask>, id: Id)
    ensures MarkedComplete(MarkedComplete(microtasks, id), id) == MarkedComplete(microtasks, id)
  {
  }

  /** Once a microtask is marked complete it is assignable to no worker. */
  lemma MarkedCompleteNotAssignable(
    microtasks: seq<Microtask>, assignments: seq<Assignment>,
    id: Id, taskId: Id, workerId: Id, maxAssignments: int)
    ensures forall m :: (m in AssignableMicrotasks(MarkedComplete(microtasks, id), assignments, taskId, workerId, maxAssignments)
      ==> m.id != id)
  {
  }

  /** The microtask table; `markComplete` updates its rows in place. */
  class MicrotaskTable {
    var rows: seq<Microtask>

    constructor (rows: seq<Microtask>)
      ensures this.rows == rows
    {
      this.rows := rows;
    }

    method MarkComplete(id: Id)
      modifies this
      ensures rows == MarkedComplete(old(rows), id)
    {
      rows := MarkedComplete(rows, id);
    }
  }

  // ---------------------------------------------------------------------------
  // uniqueResponseCount and matchingResponseCount (MicrotaskModel.ts:78-92)

  /** An assignment of the microtask whose output carries the given data value. */
  predicate RespondsWith(a: Assignment, microtaskId: Id, d: string)
  {
    a.microtaskId == microtaskId && a.data == Some(d)
  }

  /** An assignment of the microtask whose output data is not null. */
  predicate HasResponse(a: Assignment, microtaskId: Id)
  {
    a.microtaskId == microtaskId && a.data.Some?
  }

  /** The distinct non-null output data values of the microtask's assignments. */
  function ResponseValues(assignments: seq<Assignment>, microtaskId: Id): set<string>
  {
    set a | a in assignments && HasResponse(a, microtaskId) :: a.data.value
  }

  /** The number of assignments of the microtask whose output data is `d`. */
  function GroupSize(assignments: seq<Assignment>, microtaskId: Id, d: string): nat
  {
    Count(assignments, (a: Assignment) => RespondsWith(a, microtaskId, d))
  }

  /** The number of assignments of the microtask, in any status. */
  function AssignmentCount(assignments: seq<Assignment>, microtaskId: Id): nat
  {
    Count(assignments, (a: Assignment) => a.microtaskId == microtaskId)
  }

  /** COUNT(DISTINCT data): the number of distinct non-null responses. */
  function UniqueResponseCount(assignments: seq<Assignment>, microtaskId: Id): (n: nat)
    ensures n <= Count(assignments, (a: Assignment) => HasResponse(a, microtaskId))
    ensures n == 0 <==> forall a :: a in assignments ==> !HasResponse(a, microtaskId)
  {
    ResponseValuesBound(assignments, microtaskId);
    forall a | a in assignments && HasResponse(a, microtaskId)
      ensures a.data.value in ResponseValues(assignments, microtaskId) { }
    |ResponseValues(assignments, microtaskId)|
  }

  lemma {:induction false} ResponseValuesBound(assignments: seq<Assignment>, microtaskId: Id)
    ensures |ResponseValues(assignments, microtaskId)| <= Count(assignments, (a: Assignment) => HasResponse(a, microtaskId))
  {
    if assignments != [] {
      var k := |assignments| - 1;
      var init := assignments[..k];
      var last := assignments[k];
      ResponseValuesBound(init, microtaskId);
      assert assignments == init + [last];
      var added: set<string> := if HasResponse(last, microtaskId) then {last.data.value} else {};
      assert ResponseValues(assignments, microtaskId) == ResponseValues(init, microtaskId) + added;
    }
  }

  /** The largest group size among the responses of assignments[..k]. */
  function MaxGroupUpTo(assignments: seq<Assignment>, microtaskId: Id, k: nat): (n: nat)
    requires k <= |assignments|
    ensures forall i :: 0 <= i < k && HasResponse(assignments[i], microtaskId) ==>
      GroupSize(assignments, microtaskId, assignments[i].data.value) <= n
    ensures n == 0 || exists i :: (0 <= i < k && HasResponse(assignments[i], microtaskId)
      && GroupSize(assignments, microtaskId, assignments[i].data.value) == n)
  {
    if k == 0 then 0
    else
      var before := MaxGroupUpTo(assignments, microtaskId, k - 1);
      var a := assignments[k - 1];
      var here := if HasResponse(a, microtaskId) then GroupSize(assignments, microtaskId, a.data.value) else 0;
      if here > before then here else before
  }

  /** MAX over the groups of non-null data values of their sizes; SQL gives NULL
      (here `None`) when there is no such group. */
  function MatchingResponseCount(assignments: seq<Assignment>, microtaskId: Id): (r: Option<nat>)
    ensures r.None? <==> ResponseValues(assignments, microtaskId) == {}
    ensures r.Some? ==> forall d :: d in ResponseValues(assignments, microtaskId) ==>
      GroupSize(assignments, microtaskId, d) <= r.value
    ensures r.Some? ==> exists d :: (d in ResponseValues(assignments, microtaskId) &&
      GroupSize(assignments, microtaskId, d) == r.value)
  {
    var n := MaxGroupUpTo(assignments, microtaskId, |assignments|);
    MaxGroupPositive(assignments, microtaskId);
    if n == 0 then None else Some(n)
  }

  /** Every response value forms a group of at least one, so the maximum is
      positive exactly when some response exists. */
  lemma MaxGroupPositive(assignments: seq<Assignment>, microtaskId: Id)
    ensures MaxGroupUpTo(assignments, microtaskId, |assignments|) > 0 <==> ResponseValues(assignments, microtaskId) != {}
  {
    var n := MaxGroupUpTo(assignments, microtaskId, |assignments|);
    if ResponseValues(assignments, microtaskId) != {} {
      var d :| d in ResponseValues(assignments, microtaskId);
      var i := ResponseWitness(assignments, microtaskId, d);
      CountPositive(assignments, (a: Assignment) => RespondsWith(a, microtaskId, d));
    }
    if n > 0 {
      var i :| 0 <= i < |assignments| && HasResponse(assignments[i], microtaskId)
        && GroupSize(assignments, microtaskId, assignments[i].data.value) == n;
      assert assignments[i].data.value in ResponseValues(assignments, microtaskId);
    }
  }

  /** The largest group is no larger than the microtask's number of assignments. */
  lemma MatchingAtMostAssignments(assignments: seq<Assignment>, microtaskId: Id)
    requires MatchingResponseCount(assignments, microtaskId).Some?
    ensures 1 <= MatchingResponseCount(assignments, microtaskId).value <= AssignmentCount(assignments, microtaskId)
  {
    var d :| d in ResponseValues(assignments, microtaskId) &&
      GroupSize(assignments, microtaskId, d) == MatchingResponseCount(assignments, microtaskId).value;
    CountMonotone(assignments, (a: Assignment) => RespondsWith(a, microtaskId, d),
                               (a: Assignment) => a.microtaskId == microtaskId);
    var i := ResponseWitness(assignments, microtaskId, d);
    CountPositive(assignments, (a: Assignment) => RespondsWith(a, microtaskId, d));
  }

  /** A row position carrying a given response value. */
  lemma ResponseWitness(assignments: seq<Assignment>, microtaskId: Id, d: string) returns (i: int)
    requires d in ResponseValues(assignments, microtaskId)
    ensures 0 <= i < |assignments| && RespondsWith(assignments[i], microtaskId, d)
  {
    var a :| a in assignments && HasResponse(a, microtaskId) && a.data.value == d;
    i :| 0 <= i < |assignments| && assignments[i] == a;
  }

  /** Three assignments answering "yes", "yes" and "no": two distinct responses,
      and the largest agreeing group has two members. */
  lemma ConsensusExample()
    ensures var rows := [
        Assignment("m", "w1", AssignmentStatus.Completed, Some("yes")),
        Assignment("m", "w2", AssignmentStatus.Completed, Some("yes")),
        Assignment("m", "w3", AssignmentStatus.Completed, Some("no"))];
      UniqueResponseCount(rows, "m") == 2 && MatchingResponseCount(rows, "m") == Some(2)
  {
    var rows := [
      Assignment("m", "w1", AssignmentStatus.Completed, Some("yes")),
      Assignment("m", "w2", AssignmentStatus.Completed, Some("yes")),
      Assignment("m", "w3", AssignmentStatus.Completed, Some("no"))];
    assert ResponseValues(rows, "m") == {"yes", "no"};
    assert rows[..2] == rows[..1] + [rows[1]] && rows[..1][..0] == [];
    assert GroupSize(rows[..1], "m", "yes") == 1;
    assert GroupSize(rows[..2], "m", "yes") == 2;
    assert GroupSize(rows, "m", "yes") == 2;
    assert GroupSize(rows[..1], "m", "no") == 0;
    assert GroupSize(rows[..2], "m", "no") == 0;
    assert GroupSize(rows, "m", "no") == 1;
  }

  /** A microtask with two COMPLETED assignments is at a quota of two and is
      offered to no worker. */
  lemma QuotaExample(workerId: Id)
    ensures var ms := [Microtask("m", "t", Incomplete)];
      var rows := [
        Assignment("m", "w1", AssignmentStatus.Completed, Some("a")),
        Assignment("m", "w2", AssignmentStatus.Completed, Some("b"))];
      AssignableMicrotasks(ms, rows, "t", workerId, 2) == []
  {
  }
}
