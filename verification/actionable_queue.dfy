/** The list of expenses a user can act on, and its agreement with the decision commands. */
module ActionableQueue {
  import opened Domain
  import opened ApprovalRouting
  import opened ApprovalAccess
  import opened ExpenseLifecycle
  import opened ExpenseInvariants
  import opened ApprovalProgress

  /** The WHERE clause of the candidate query. Users who manage departments without a global
      permission only see their departments, by the expense's or by its owner's department. */
  predicate IsCandidate(s: State, auth: AuthUser, e: Expense) {
    && IsPending(e.status)
    && e.userId != auth.id
    && (IsManagerApprover(auth) && !HasGlobalApproval(auth) ==>
          || (e.departmentId.Some? && e.departmentId.value in auth.managedDepartments)
          || (var d := OwnerDepartment(e, s.users); d.Some? && d.value in auth.managedDepartments))
  }

  predicate IsActionable(s: State, auth: AuthUser, e: Expense, ds: seq<Decision>, now: int) {
    && CanDecideOnExpense(auth, e, s.users)
    && var stage := ActiveStage(e, Required(s, e), ds);
    && stage.Some?
    && MayAct(s, auth, e, stage.value, now)
  }

  predicate IsListed(s: State, auth: AuthUser, id: Id, now: int)
    requires id in s.expenses
  {
    IsCandidate(s, auth, s.expenses[id]) && IsActionable(s, auth, s.expenses[id], DecisionsOn(s, id), now)
  }

  /** The candidate query drops nothing that the later filter would keep, whichever of the two
      departments makes it the caller's. */
  lemma CandidatesKeepActionable(s: State, auth: AuthUser, e: Expense, ds: seq<Decision>, now: int)
    requires IsPending(e.status) && e.userId != auth.id && IsActionable(s, auth, e, ds, now)
    ensures IsCandidate(s, auth, e)
  {
  }

  // ---------- The list is what the commands accept ----------

  /** A rejection with a comment succeeds exactly on the listed expenses whose status fits the
      active stage; the candidate query drops none of them. */
  lemma RejectableExactlyWhenListed(s: State, auth: AuthUser, id: Id, now: int)
    requires Consistent(s) && id in s.expenses
    ensures RejectTx(s, auth, id, true, now).Ok? <==>
            && IsListed(s, auth, id, now)
            && var e := s.expenses[id];
            StatusFitsStage(ActiveStage(e, Required(s, e), DecisionsOn(s, id)).value, e.status, Required(s, e))
  {
    var e := s.expenses[id];
    var required := Required(s, e);
    RequiredLevelsSpec(e, s.levels, ManagerOf(s, e.departmentId));
    if ActiveStage(e, required, DecisionsOn(s, id)).Some? {
      ActiveStageIsReady(e, required, DecisionsOn(s, id));
    }
  }

  /** In runs that leave the workflow alone the two agree without further condition. */
  lemma OnTrackRejectableExactlyWhenListed(s: State, auth: AuthUser, id: Id, now: int)
    requires Consistent(s) && id in s.expenses && ExpenseOnTrack(s, id)
    ensures RejectTx(s, auth, id, true, now).Ok? <==> IsListed(s, auth, id, now)
  {
    RejectableExactlyWhenListed(s, auth, id, now);
    if IsPending(s.expenses[id].status) {
      PendingExpenseCanBeDecided(s, id);
    }
  }

  // ---------- Order of the approval rows ----------

  /** With one decision per level, looking a decision up does not depend on the row order. */
  lemma LookupIgnoresOrder(a: seq<Decision>, b: seq<Decision>, levelId: Id)
    requires multiset(a) == multiset(b) && OnePerLevel(b)
    ensures DecisionAt(a, levelId) == DecisionAt(b, levelId)
  {
    DecisionAtFinds(a, levelId);
    DecisionAtFinds(b, levelId);
    assert forall d :: d in a <==> d in multiset(a);
    assert forall d :: d in b <==> d in multiset(b);
    if DecisionAt(a, levelId).Some? && DecisionAt(b, levelId).Some? {
      var x, y := DecisionAt(a, levelId).value, DecisionAt(b, levelId).value;
      var i :| 0 <= i < |b| && b[i] == x;
      var j :| 0 <= j < |b| && b[j] == y;
      assert i == j;
    }
  }

  lemma StageIgnoresOrder(e: Expense, required: seq<Level>, a: seq<Decision>, b: seq<Decision>)
    requires multiset(a) == multiset(b) && OnePerLevel(b)
    ensures ActiveStage(e, required, a) == ActiveStage(e, required, b)
  {
    forall levelId: Id
      ensures DecisionAt(a, levelId) == DecisionAt(b, levelId)
    {
      LookupIgnoresOrder(a, b, levelId);
    }
    forall i
      ensures IsFirstOpen(required, a, i) <==> IsFirstOpen(required, b, i)
    {
      assert forall k :: 0 <= k < |required| ==> (ApprovedAt(a, required[k].id) <==> ApprovedAt(b, required[k].id));
    }
    if FirstOpen(required, a).Some? {
      var i :| IsFirstOpen(required, a, i) && FirstOpen(required, a).value == required[i];
      assert IsFirstOpen(required, b, i);
      var j :| IsFirstOpen(required, b, j) && FirstOpen(required, b).value == required[j];
      FirstOpenIsUnique(required, b, i, j);
    }
  }

  // ---------- The service ----------

  /** A row of expense_approvals as the batch query returns it. */
  datatype ApprovalRow = ApprovalRow(expenseId: Id, decision: Decision)

  function RowsOf(rows: seq<ApprovalRow>, id: Id): seq<Decision> {
    if rows == [] then []
    else
      var rest := RowsOf(rows[..|rows| - 1], id);
      var last := rows[|rows| - 1];
      if last.expenseId == id then rest + [last.decision] else rest
  }

  /** The approval rows of every candidate, in any order. */
  predicate HoldsDecisions(rows: seq<ApprovalRow>, s: State, candidates: seq<Id>) {
    forall id :: id in candidates ==> multiset(RowsOf(rows, id)) == multiset(DecisionsOn(s, id))
  }

  function CandidatesIn(s: State, auth: AuthUser, table: seq<Id>): seq<Id>
    requires forall id :: id in table ==> id in s.expenses
  {
    if table == [] then []
    else
      var rest := CandidatesIn(s, auth, table[..|table| - 1]);
      var last := table[|table| - 1];
      if IsCandidate(s, auth, s.expenses[last]) then rest + [last] else rest
  }

  lemma {:induction false} CandidatesSpec(s: State, auth: AuthUser, table: seq<Id>)
    requires forall id :: id in table ==> id in s.expenses
    ensures forall id :: id in CandidatesIn(s, auth, table) <==> id in table && IsCandidate(s, auth, s.expenses[id])
  {
    if table != [] {
      CandidatesSpec(s, auth, table[..|table| - 1]);
      assert table == table[..|table| - 1] + [table[|table| - 1]];
    }
  }

  method GroupByExpense(rows: seq<ApprovalRow>) returns (buckets: map<Id, seq<Decision>>)
    ensures forall id :: RowsFor(buckets, id) == RowsOf(rows, id)
  {
    buckets := map[];
    for i := 0 to |rows|
      invariant forall id :: RowsFor(buckets, id) == RowsOf(rows[..i], id)
    {
      var row := rows[i];
      var bucket := RowsFor(buckets, row.expenseId);
      buckets := buckets[row.expenseId := bucket + [row.decision]];
      assert rows[..i + 1][..i] == rows[..i];
    }
    assert rows[..|rows|] == rows;
  }

  /** `table` lists expenses in the order the database happens to return them. */
  method GetActionableExpenseIds(s: State, auth: AuthUser, table: seq<Id>, rows: seq<ApprovalRow>, now: int)
    returns (actionable: seq<Id>)
    requires Consistent(s)
    requires forall id :: id in table ==> id in s.expenses
    requires HoldsDecisions(rows, s, CandidatesIn(s, auth, table))
    ensures forall id :: id in actionable <==> id in table && IsListed(s, auth, id, now)
  {
    var candidates := CandidatesIn(s, auth, table);
    CandidatesSpec(s, auth, table);
    actionable := [];
    if |candidates| == 0 {
      return;
    }
    actionable := KeepActionable(s, auth, candidates, rows, now);
  }

  method KeepActionable(s: State, auth: AuthUser, candidates: seq<Id>, rows: seq<ApprovalRow>, now: int)
    returns (actionable: seq<Id>)
    requires Consistent(s) && HoldsDecisions(rows, s, candidates)
    requires forall id :: id in candidates ==> id in s.expenses && IsCandidate(s, auth, s.expenses[id])
    ensures forall id :: id in actionable <==> id in candidates && IsListed(s, auth, id, now)
  {
    actionable := [];
    var approvalsByExpenseId := GroupByExpense(rows);
    for i := 0 to |candidates|
      invariant forall id :: id in actionable <==> id in candidates[..i] && IsListed(s, auth, id, now)
    {
      var id := candidates[i];
      assert id in candidates;
      var approvals := RowsFor(approvalsByExpenseId, id);
      ListedByRows(s, auth, id, approvals, now);
      var listed := IsActionableForUser(s, auth, s.expenses[id], approvals, now);
      if listed {
        actionable := actionable + [id];
      }
      assert candidates[..i + 1] == candidates[..i] + [id];
    }
    assert candidates[..|candidates|] == candidates;
  }

  /** The rows of a candidate, in any order, tell whether it is listed. */
  lemma ListedByRows(s: State, auth: AuthUser, id: Id, approvals: seq<Decision>, now: int)
    requires Consistent(s) && id in s.expenses && IsCandidate(s, auth, s.expenses[id])
    requires multiset(approvals) == multiset(DecisionsOn(s, id))
    ensures IsListed(s, auth, id, now) <==> IsActionable(s, auth, s.expenses[id], approvals, now)
  {
    assert ExpenseOk(s.expenses[id], DecisionsOn(s, id));
    StageIgnoresOrder(s.expenses[id], Required(s, s.expenses[id]), approvals, DecisionsOn(s, id));
  }

  method IsActionableForUser(s: State, auth: AuthUser, e: Expense, approvals: seq<Decision>, now: int)
    returns (actionable: bool)
    ensures actionable == IsActionable(s, auth, e, approvals, now)
  {
    if !CanDecideOnExpense(auth, e, s.users) {
      return false;
    }
    var managerId := ManagerOf(s, e.departmentId);
    var stage := GetActiveStage(e, s.levels, managerId, approvals);
    if stage.None? {
      return false;
    }
    if CanActOnStage(auth, e, stage.value, s.users) {
      return true;
    }
    actionable := CanActAsDelegate(auth, e, stage.value, s.delegations, s.users, s.departments, now);
  }
}
