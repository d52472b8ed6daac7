/** Exactly which requests the expense transactions accept, how they refuse the others, and what the
    accepted ones leave, in terms of what the tables hold. */
module ExpenseAcceptance {
  import opened Domain
  import opened BudgetPeriod
  import opened BudgetLedger
  import opened ApprovalRouting
  import opened ApprovalAccess
  import opened ExpenseLifecycle
  import opened ExpenseInvariants
  import opened ApprovalProgress

  // ---------- Rights ----------

  /** Department `d` answers for the expense: its own department, or else its owner's. */
  predicate AnswersFor(s: State, e: Expense, d: Id) {
    || e.departmentId == Some(d)
    || (e.departmentId == None && e.userId in s.users && s.users[e.userId].departmentId == Some(d))
  }

  predicate LeadsOne(s: State, managed: set<Id>, e: Expense) {
    exists d :: d in managed && AnswersFor(s, e, d)
  }

  predicate HoldsGlobalGrant(grants: set<Permission>) {
    ApproveGlobally in grants || RejectGlobally in grants
  }

  /** At a manager stage the managers of the department have a vote, at a finance stage the holders of
      a global grant. */
  predicate HasVote(s: State, managed: set<Id>, grants: set<Permission>, e: Expense, approver: ApproverType) {
    if approver == DepartmentManager then LeadsOne(s, managed, e) else HoldsGlobalGrant(grants)
  }

  /** The active departments that a user leads. */
  function Led(s: State, userId: Id): set<Id> {
    set d | d in s.departments && s.departments[d].managerId == Some(userId)
            && s.departments[d].isActive && !s.departments[d].isDeleted
  }

  /** Somebody with a vote has delegated it for a time that has begun and is not over. */
  predicate HasDelegatedVote(s: State, delegateId: Id, e: Expense, approver: ApproverType, now: int) {
    exists d :: d in s.delegations
                && d.delegateId == delegateId && d.isActive && d.startsAt <= now && now <= d.endsAt
                && d.delegatorId in s.users
                && HasVote(s, Led(s, d.delegatorId), s.users[d.delegatorId].grants, e, approver)
  }

  /** Who may look at an expense in order to decide on it. */
  predicate HasAccess(s: State, auth: AuthUser, e: Expense) {
    HoldsGlobalGrant(auth.grants) || LeadsOne(s, auth.managedDepartments, e)
  }

  lemma AccessIsDeciding(s: State, auth: AuthUser, e: Expense)
    ensures CanDecideOnExpense(auth, e, s.users) <==> HasAccess(s, auth, e)
  {
    if LeadsOne(s, auth.managedDepartments, e) {
      var d :| d in auth.managedDepartments && AnswersFor(s, e, d);
    } else if ManagesExpense(auth, e, s.users) {
      assert AnswersFor(s, e, ExpenseDepartment(e, s.users).value);
    }
  }

  lemma VoteIsActing(s: State, auth: AuthUser, e: Expense, stage: Level)
    ensures CanActOnStage(auth, e, stage, s.users) <==>
              HasVote(s, auth.managedDepartments, auth.grants, e, stage.approverType)
  {
    AccessIsDeciding(s, auth, e);
    if LeadsOne(s, auth.managedDepartments, e) {
      var d :| d in auth.managedDepartments && AnswersFor(s, e, d);
    } else if ManagesExpense(auth, e, s.users) {
      assert AnswersFor(s, e, ExpenseDepartment(e, s.users).value);
    }
  }

  lemma DelegationCounts(s: State, d: Delegation, delegateId: Id, e: Expense, stage: Level, now: int)
    ensures IsLive(d, delegateId, now) && DelegatorCanAct(d, e, stage, s.users, s.departments) <==>
              && d.delegateId == delegateId && d.isActive && d.startsAt <= now && now <= d.endsAt
              && d.delegatorId in s.users
              && HasVote(s, Led(s, d.delegatorId), s.users[d.delegatorId].grants, e, stage.approverType)
  {
    if d.delegatorId in s.users {
      assert ManagedDepartments(d.delegatorId, s.departments) == Led(s, d.delegatorId);
      VoteIsActing(s, AuthUser(d.delegatorId, Led(s, d.delegatorId), s.users[d.delegatorId].grants), e, stage);
    }
  }

  /** The right to act at a stage, over grants, departments and delegations. */
  lemma ActingExactly(s: State, auth: AuthUser, e: Expense, stage: Level, now: int)
    ensures MayAct(s, auth, e, stage, now) <==>
              || HasVote(s, auth.managedDepartments, auth.grants, e, stage.approverType)
              || HasDelegatedVote(s, auth.id, e, stage.approverType, now)
  {
    VoteIsActing(s, auth, e, stage);
    forall d: Delegation
      ensures IsLive(d, auth.id, now) && DelegatorCanAct(d, e, stage, s.users, s.departments) <==>
                && d.delegateId == auth.id && d.isActive && d.startsAt <= now && now <= d.endsAt
                && d.delegatorId in s.users
                && HasVote(s, Led(s, d.delegatorId), s.users[d.delegatorId].grants, e, stage.approverType)
    {
      DelegationCounts(s, d, auth.id, e, stage, now);
    }
  }

  // ---------- Decisions ----------

  /** The expense waits at position `i` of its chain, with the status that belongs there. */
  predicate WaitsAt(s: State, id: Id, i: int)
    requires id in s.expenses
  {
    var e := s.expenses[id];
    var required := Required(s, e);
    && IsFirstOpen(required, DecisionsOn(s, id), i)
    && (e.status == Submitted || e.status == UnderReview)
    && e.status == StatusAt(required, i)
  }

  lemma WaitingIsReady(s: State, id: Id)
    requires DistinctIds(s.levels) && id in s.expenses
    ensures var e := s.expenses[id];
            var required, ds := Required(s, e), DecisionsOn(s, id);
            var active := ActiveStage(e, required, ds);
            && (active.Some? && ReadyForStage(active.value, e, required, ds) <==> exists i :: WaitsAt(s, id, i))
            && (forall i :: WaitsAt(s, id, i) ==> active == Some(required[i]))
  {
    var e := s.expenses[id];
    var required, ds := Required(s, e), DecisionsOn(s, id);
    RequiredLevelsSpec(e, s.levels, ManagerOf(s, e.departmentId));
    if ActiveStage(e, required, ds).Some? {
      var i :| IsFirstOpen(required, ds, i) && ActiveStage(e, required, ds).value == required[i];
      StatusFitsExactly(required, i, e.status);
      ActiveStageIsReady(e, required, ds);
      forall j | IsFirstOpen(required, ds, j)
        ensures i == j
      {
        FirstOpenIsUnique(required, ds, i, j);
      }
      assert WaitsAt(s, id, i) <==> e.status == StatusAt(required, i);
    }
  }

  /** Every answer to a decision, in the order of the guards: which requests are refused and how, and
      at which level the others decide. */
  lemma DecisionAnswered(s: State, auth: AuthUser, id: Id, now: int)
    requires DistinctIds(s.levels)
    ensures id !in s.expenses ==> StageToDecide(s, auth, id, now) == Err(NotFound)
    ensures id in s.expenses ==>
              var e, answer := s.expenses[id], StageToDecide(s, auth, id, now);
              if e.userId == auth.id || !HasAccess(s, auth, e) then answer == Err(Forbidden)
              else if forall i :: !WaitsAt(s, id, i) then answer == Err(Conflict)
              else
                exists i :: WaitsAt(s, id, i) &&
                  var level := Required(s, e)[i];
                  answer == if || HasVote(s, auth.managedDepartments, auth.grants, e, level.approverType)
                               || HasDelegatedVote(s, auth.id, e, level.approverType, now)
                            then Ok(level) else Err(Forbidden)
  {
    if id in s.expenses {
      var e := s.expenses[id];
      AccessIsDeciding(s, auth, e);
      WaitingIsReady(s, id);
      if i :| WaitsAt(s, id, i) {
        ActingExactly(s, auth, e, Required(s, e)[i], now);
      }
    }
  }

  /** An accepted decision at a manager stage is by a manager of the department that answers for the
      expense, or for one who delegated it; at a finance stage it is by, or for, a holder of a global
      grant. In either case the caller has access as well. */
  lemma DecisionsAreByVote(s: State, auth: AuthUser, id: Id, now: int)
    requires DistinctIds(s.levels) && StageToDecide(s, auth, id, now).Ok?
    ensures var e, stage := s.expenses[id], StageToDecide(s, auth, id, now).value;
            && e.userId != auth.id && HasAccess(s, auth, e)
            && (|| HasVote(s, auth.managedDepartments, auth.grants, e, stage.approverType)
                || HasDelegatedVote(s, auth.id, e, stage.approverType, now))
  {
    DecisionAnswered(s, auth, id, now);
  }

  /** On a pending expense on track, everybody who has a vote at its stage and does not own it passes
      all guards of a decision, and a rejection with a comment is accepted. */
  lemma VotersDecideOnTrack(s: State, auth: AuthUser, id: Id, now: int)
    requires Consistent(s) && id in s.expenses && ExpenseOnTrack(s, id) && IsPending(s.expenses[id].status)
    requires auth.id != s.expenses[id].userId
    requires HasVote(s, auth.managedDepartments, auth.grants, s.expenses[id],
                     Required(s, s.expenses[id])[|DecisionsOn(s, id)|].approverType)
    ensures StageToDecide(s, auth, id, now) == Ok(Required(s, s.expenses[id])[|DecisionsOn(s, id)|])
    ensures RejectTx(s, auth, id, true, now).Ok?
  {
    var e := s.expenses[id];
    var required, n := Required(s, e), |DecisionsOn(s, id)|;
    PendingExpenseCanBeDecided(s, id);
    AccessIsDeciding(s, auth, e);
    VoteIsActing(s, auth, e, required[n]);
  }

  /** A delegation alone does not admit its delegate: without access of their own they are refused. */
  lemma DelegatesNeedAccess(s: State, auth: AuthUser, id: Id, now: int)
    requires id in s.expenses && !HasAccess(s, auth, s.expenses[id])
    ensures StageToDecide(s, auth, id, now) == Err(Forbidden)
  {
    AccessIsDeciding(s, auth, s.expenses[id]);
  }

  /** The active budget row over its limit on which an approval has to be justified. */
  predicate IsOverBudget(s: State, key: Key) {
    key in s.budgets && s.budgets[key].isActive && s.budgets[key].amountLimit < s.budgets[key].committed
  }

  /** An approval beyond the guards of a decision: the year has to be one that the budgets know, the
      department has to exist, and an over-budget row asks for a comment and at a finance stage for an
      acknowledgement. */
  predicate ApprovalJustified(c: Config, s: State, e: Expense, stage: Level, hasComment: bool,
                              acknowledged: bool, now: int)
  {
    match e.departmentId
    case None => true
    case Some(d) =>
      var year := ResolveBudgetYear(if e.submittedAt == None then now else e.submittedAt.value, c.zone);
      && 2000 <= year <= 2100
      && d in s.departments && !s.departments[d].isDeleted
      && (IsOverBudget(s, (d, year)) ==> hasComment && (stage.approverType == DepartmentManager || acknowledged))
  }

  lemma ApprovalAccepted(c: Config, s: State, auth: AuthUser, id: Id, hasComment: bool, acknowledged: bool, now: int)
    ensures ApproveTx(c, s, auth, id, hasComment, acknowledged, now).Ok? <==>
              && StageToDecide(s, auth, id, now).Ok?
              && ApprovalJustified(c, s, s.expenses[id], StageToDecide(s, auth, id, now).value,
                                   hasComment, acknowledged, now)
  {
  }

  /** The last stage makes the expense approved, an earlier one keeps it under review. */
  lemma ApprovalLeaves(c: Config, s: State, auth: AuthUser, id: Id, hasComment: bool, acknowledged: bool, now: int)
    requires DistinctIds(s.levels) && ApproveTx(c, s, auth, id, hasComment, acknowledged, now).Ok?
    ensures var f := ApproveTx(c, s, auth, id, hasComment, acknowledged, now).value;
            var stage, required := StageToDecide(s, auth, id, now), Required(s, s.expenses[id]);
            && stage.Ok? && required != []
            && f.after ==
               s.expenses[id].(status := if stage.value == required[|required| - 1] then Approved else UnderReview)
  {
    LastStage(s, auth, id, now);
  }

  lemma ApprovalRefused(c: Config, s: State, auth: AuthUser, id: Id, hasComment: bool, acknowledged: bool, now: int)
    requires ApproveTx(c, s, auth, id, hasComment, acknowledged, now).Err?
    ensures var error := ApproveTx(c, s, auth, id, hasComment, acknowledged, now).error;
            var stage := StageToDecide(s, auth, id, now);
            if stage.Err? then error == stage.error
            else
              var d := s.expenses[id].departmentId;
              error == if d.Some? && (d.value !in s.departments || s.departments[d.value].isDeleted)
                          && InBounds(c, s.expenses[id], now) then NotFound else BadRequest
  {
  }

  predicate InBounds(c: Config, e: Expense, now: int) {
    2000 <= ResolveBudgetYear(if e.submittedAt == None then now else e.submittedAt.value, c.zone) <= 2100
  }

  lemma LastStage(s: State, auth: AuthUser, id: Id, now: int)
    requires StageToDecide(s, auth, id, now).Ok? && DistinctIds(s.levels)
    ensures var required, stage := Required(s, s.expenses[id]), StageToDecide(s, auth, id, now).value;
            && required != []
            && StatusAfterLevelApproval(stage, required) ==
                 if stage == required[|required| - 1] then Approved else UnderReview
  {
    var e := s.expenses[id];
    RequiredLevelsSpec(e, s.levels, ManagerOf(s, e.departmentId));
    var required, stage := Required(s, e), StageToDecide(s, auth, id, now).value;
    var i :| IsFirstOpen(required, DecisionsOn(s, id), i) && stage == required[i];
    IndexOfDistinct(required, i);
  }

  lemma RejectionAccepted(s: State, auth: AuthUser, id: Id, hasComment: bool, now: int)
    ensures match RejectTx(s, auth, id, hasComment, now)
            case Ok(f) =>
              hasComment && StageToDecide(s, auth, id, now).Ok? && f.after == s.expenses[id].(status := Rejected)
            case Err(error) =>
              if hasComment then StageToDecide(s, auth, id, now) == Err(error) else error == BadRequest
  {
  }

  // ---------- Submissions ----------

  /** The owner is the manager of the department, and the department is active. */
  predicate OwnerLeads(s: State, e: Expense, d: Id)
    requires d in s.departments
  {
    s.departments[d].isActive && s.departments[d].managerId == Some(e.userId)
  }

  /** Once any manager level is active, the department has to be active and have a manager. */
  predicate HasManagerIfNeeded(s: State, d: Id)
    requires d in s.departments
  {
    (exists level :: level in s.levels && level.isActive && level.approverType == DepartmentManager) ==>
      s.departments[d].isActive && s.departments[d].managerId != None
  }

  /** With blocking on, an active budget has room for the amount. */
  predicate HasRoom(c: Config, s: State, key: Key, amount: int) {
    c.blockOverspend && key in s.budgets && s.budgets[key].isActive ==>
      s.budgets[key].committed + amount <= s.budgets[key].amountLimit
  }

  predicate MaySubmitTo(c: Config, s: State, e: Expense, d: Id, submitAt: int) {
    && AnswersFor(s, e, d)
    && d in s.departments && !s.departments[d].isDeleted
    && HasManagerIfNeeded(s, d)
    && 2000 <= ResolveBudgetYear(submitAt, c.zone) <= 2100
    && HasRoom(c, s, (d, ResolveBudgetYear(submitAt, c.zone)), e.amount)
  }

  /** A submission is accepted exactly if the caller owns the draft, it is compliant with a positive
      amount, and the department that answers for it can take it. */
  lemma SubmissionAccepted(c: Config, s: State, auth: AuthUser, id: Id, submitAt: int, compliant: bool)
    ensures SubmitTx(c, s, auth, id, submitAt, compliant).Ok? <==>
              && id in s.expenses && s.expenses[id].userId == auth.id && s.expenses[id].status == Draft
              && compliant && 0 < s.expenses[id].amount
              && exists d :: MaySubmitTo(c, s, s.expenses[id], d, submitAt)
  {
    if id in s.expenses {
      var e := s.expenses[id];
      var department := ResolveDepartment(e.userId, e.departmentId, MembersOf(s.users));
      forall d: Id
        ensures AnswersFor(s, e, d) <==> department == Some(d)
      {
      }
      if department.Some? {
        SubmissionOf(c, s, auth, id, submitAt, compliant, department.value);
      }
    }
  }

  lemma SubmissionOf(c: Config, s: State, auth: AuthUser, id: Id, submitAt: int, compliant: bool, d: Id)
    requires id in s.expenses
    requires ResolveDepartment(s.expenses[id].userId, s.expenses[id].departmentId, MembersOf(s.users)) == Some(d)
    ensures SubmitTx(c, s, auth, id, submitAt, compliant).Ok? <==>
              && s.expenses[id].userId == auth.id && s.expenses[id].status == Draft
              && compliant && 0 < s.expenses[id].amount
              && MaySubmitTo(c, s, s.expenses[id], d, submitAt)
  {
  }

  /** The department that answers for the expense is gone, and nothing the submission looks at earlier
      stops it. */
  predicate OnlyLacksDepartment(c: Config, s: State, e: Expense, d: Id, submitAt: int) {
    && AnswersFor(s, e, d)
    && (d !in s.departments || s.departments[d].isDeleted)
    && (forall level :: level in s.levels && level.isActive ==> level.approverType != DepartmentManager)
    && 2000 <= ResolveBudgetYear(submitAt, c.zone) <= 2100
  }

  /** Refusals: the expense or its department is missing, or the caller is not the owner; anything else
      is a bad request. */
  lemma SubmissionRefused(c: Config, s: State, auth: AuthUser, id: Id, submitAt: int, compliant: bool)
    requires SubmitTx(c, s, auth, id, submitAt, compliant).Err?
    ensures var error := SubmitTx(c, s, auth, id, submitAt, compliant).error;
            && (error == NotFound <==>
                  id in s.expenses ==>
                    && s.expenses[id].userId == auth.id && s.expenses[id].status == Draft
                    && compliant && 0 < s.expenses[id].amount
                    && exists d :: OnlyLacksDepartment(c, s, s.expenses[id], d, submitAt))
            && (error == Forbidden <==> id in s.expenses && s.expenses[id].userId != auth.id)
            && error != Conflict
  {
    if id in s.expenses {
      var e := s.expenses[id];
      var department := ResolveDepartment(e.userId, e.departmentId, MembersOf(s.users));
      forall d: Id
        ensures AnswersFor(s, e, d) <==> department == Some(d)
      {
      }
      if department.Some? {
        assert SubmitTx(c, s, auth, id, submitAt, compliant).error == NotFound ==>
            OnlyLacksDepartment(c, s, e, department.value, submitAt);
      }
    }
  }

  /** With blocking off, no submission is refused for the budget: whatever the rows hold, the answer is
      the same. */
  lemma BudgetsOnlyBlockWhenTold(c: Config, s: State, auth: AuthUser, id: Id, submitAt: int, compliant: bool,
                                 budgets: map<Key, BudgetRow>)
    requires !c.blockOverspend
    ensures SubmitTx(c, s, auth, id, submitAt, compliant).Ok? <==>
              SubmitTx(c, s.(budgets := budgets), auth, id, submitAt, compliant).Ok?
  {
    if id in s.expenses {
      var e := s.expenses[id];
      var t := s.(budgets := budgets);
      var department := ResolveDepartment(e.userId, e.departmentId, MembersOf(s.users));
      if department.Some? {
        SubmissionOf(c, s, auth, id, submitAt, compliant, department.value);
        SubmissionOf(c, t, auth, id, submitAt, compliant, department.value);
      }
    }
  }

  /** What an accepted submission leaves: the expense with department, instant and the status of the
      first level for it, approved at once exactly if no active level is for its amount and approver. */
  lemma SubmissionLeaves(c: Config, s: State, auth: AuthUser, id: Id, submitAt: int, compliant: bool)
    requires DistinctIds(s.levels) && SubmitTx(c, s, auth, id, submitAt, compliant).Ok?
    ensures var f, e := SubmitTx(c, s, auth, id, submitAt, compliant).value, s.expenses[id];
            && f.after.departmentId.Some? && AnswersFor(s, e, f.after.departmentId.value)
            && f.after ==
               e.(departmentId := f.after.departmentId, submittedAt := Some(submitAt), status := f.after.status)
            && f.after.departmentId.value in s.departments
            && var ownerLeads := OwnerLeads(s, e, f.after.departmentId.value);
            && (f.after.status == Approved <==>
                forall level :: level in s.levels ==> !IsFor(level, e.amount, ownerLeads))
            && (f.after.status == Submitted <==> IsFirstFor(s.levels, e.amount, ownerLeads, DepartmentManager))
            && (f.after.status == UnderReview <==> IsFirstFor(s.levels, e.amount, ownerLeads, FinanceManager))
  {
    var f, e := SubmitTx(c, s, auth, id, submitAt, compliant).value, s.expenses[id];
    var d := f.after.departmentId.value;
    var filled := e.(departmentId := Some(d));
    var manager := ActiveManagerOf(s, d);
    assert AnswersFor(s, e, d);
    RequiredLevelsSpec(filled, s.levels, manager);
    var required := RequiredLevels(filled, s.levels, manager);
    assert (manager == Some(e.userId)) == OwnerLeads(s, e, d);
    FirstRequired(required, s.levels, filled, manager);
    assert f.after.status == InitialSubmitStatus(required);
  }

  /** Sorting leaves a level of this kind in front: one that is for the expense, with none of a lower
      rank, and first in the catalogue among its rank. */
  ghost predicate IsFirstFor(levels: seq<Level>, amount: int, ownerManages: bool, approver: ApproverType) {
    exists i :: 0 <= i < |levels| && levels[i].approverType == approver && IsFor(levels[i], amount, ownerManages)
                && (forall j :: 0 <= j < |levels| && IsFor(levels[j], amount, ownerManages) ==>
                      levels[i].rank < levels[j].rank || (levels[i].rank == levels[j].rank && i <= j))
  }

  predicate IsFront(levels: seq<Level>, e: Expense, managerId: Option<Id>, i: int) {
    && 0 <= i < |levels| && IsRequired(levels[i], e, managerId)
    && forall j :: 0 <= j < |levels| && IsRequired(levels[j], e, managerId) ==>
         levels[i].rank < levels[j].rank || (levels[i].rank == levels[j].rank && i <= j)
  }

  /** The sort is stable: in front is the first of the levels with the lowest rank. */
  lemma {:induction false} FrontOfSorted(levels: seq<Level>, e: Expense, managerId: Option<Id>)
    ensures var required := RequiredLevels(e, levels, managerId);
            && (required == [] <==> forall i :: !IsFront(levels, e, managerId, i))
            && (required != [] ==> exists i :: IsFront(levels, e, managerId, i) && required[0] == levels[i])
  {
    if levels != [] {
      var rest := levels[1..];
      FrontOfSorted(rest, e, managerId);
      var sorted := RequiredLevels(e, rest, managerId);
      if IsRequired(levels[0], e, managerId) {
        if sorted == [] || levels[0].rank <= sorted[0].rank {
          NewFront(levels, e, managerId, sorted);
        } else {
          var i :| IsFront(rest, e, managerId, i) && sorted[0] == rest[i];
          assert IsFront(levels, e, managerId, i + 1);
        }
      } else if sorted != [] {
        var i :| IsFront(rest, e, managerId, i) && sorted[0] == rest[i];
        assert IsFront(levels, e, managerId, i + 1);
      } else {
        NoFront(levels, e, managerId);
      }
    }
  }

  lemma NewFront(levels: seq<Level>, e: Expense, managerId: Option<Id>, sorted: seq<Level>)
    requires levels != [] && IsRequired(levels[0], e, managerId)
    requires sorted == RequiredLevels(e, levels[1..], managerId) && (sorted == [] || levels[0].rank <= sorted[0].rank)
    requires sorted == [] <==> forall i :: !IsFront(levels[1..], e, managerId, i)
    requires sorted != [] ==> exists i :: IsFront(levels[1..], e, managerId, i) && sorted[0] == levels[1..][i]
    ensures IsFront(levels, e, managerId, 0)
  {
    var rest := levels[1..];
    if sorted != [] {
      var i :| IsFront(rest, e, managerId, i) && sorted[0] == rest[i];
      forall j | 0 < j < |levels| && IsRequired(levels[j], e, managerId)
        ensures levels[0].rank <= levels[j].rank
      {
        assert rest[j - 1] == levels[j];
      }
    } else {
      forall j | 0 < j < |levels|
        ensures !IsRequired(levels[j], e, managerId)
      {
        assert rest[j - 1] == levels[j];
        if IsRequired(levels[j], e, managerId) { SortedHasAll(rest, e, managerId, j - 1); }
      }
    }
  }

  lemma SortedHasAll(levels: seq<Level>, e: Expense, managerId: Option<Id>, j: nat)
    requires j < |levels| && IsRequired(levels[j], e, managerId)
    ensures RequiredLevels(e, levels, managerId) != []
  {
    ApplicableKeeps(levels, e, managerId);
    var applicable := Applicable(levels, e, managerId);
    SortKeeps(applicable);
    assert levels[j] in applicable;
    assert levels[j] in multiset(applicable);
  }

  lemma NoFront(levels: seq<Level>, e: Expense, managerId: Option<Id>)
    requires levels != [] && !IsRequired(levels[0], e, managerId)
    requires forall i :: !IsFront(levels[1..], e, managerId, i)
    ensures forall i :: !IsFront(levels, e, managerId, i)
  {
    forall i
      ensures IsFront(levels, e, managerId, i) ==> IsFront(levels[1..], e, managerId, i - 1)
    {
      if IsFront(levels, e, managerId, i) { FrontOfRest(levels, e, managerId, i); }
    }
  }

  lemma FrontOfRest(levels: seq<Level>, e: Expense, managerId: Option<Id>, i: int)
    requires levels != [] && !IsRequired(levels[0], e, managerId) && IsFront(levels, e, managerId, i)
    ensures IsFront(levels[1..], e, managerId, i - 1)
  {
    assert levels[1..][i - 1] == levels[i];
    assert forall j :: 0 <= j < |levels[1..]| ==> levels[1..][j] == levels[j + 1];
  }

  lemma FirstRequired(required: seq<Level>, levels: seq<Level>, e: Expense, managerId: Option<Id>)
    requires required == RequiredLevels(e, levels, managerId)
    ensures var ownerManages := managerId == Some(e.userId);
            && (required == [] <==> forall level :: level in levels ==> !IsFor(level, e.amount, ownerManages))
            && (required != [] && required[0].approverType == DepartmentManager <==>
                  IsFirstFor(levels, e.amount, ownerManages, DepartmentManager))
            && (required != [] && required[0].approverType == FinanceManager <==>
                  IsFirstFor(levels, e.amount, ownerManages, FinanceManager))
  {
    var ownerManages := managerId == Some(e.userId);
    FrontOfSorted(levels, e, managerId);
    forall level: Level
      ensures IsRequired(level, e, managerId) <==> IsFor(level, e.amount, ownerManages)
    {
    }
    if level :| level in levels && IsFor(level, e.amount, ownerManages) {
      var j :| 0 <= j < |levels| && levels[j] == level;
      SortedHasAll(levels, e, managerId, j);
    }
    if required != [] {
      var i :| IsFront(levels, e, managerId, i) && required[0] == levels[i];
      assert levels[i] in levels && IsFor(levels[i], e.amount, ownerManages);
      FrontIsFirst(levels, e, managerId, i, DepartmentManager);
      FrontIsFirst(levels, e, managerId, i, FinanceManager);
    }
  }

  lemma FrontIsFirst(levels: seq<Level>, e: Expense, managerId: Option<Id>, i: int, approver: ApproverType)
    requires IsFront(levels, e, managerId, i)
    ensures IsFirstFor(levels, e.amount, managerId == Some(e.userId), approver) <==> levels[i].approverType == approver
  {
    var ownerManages := managerId == Some(e.userId);
    forall j | 0 <= j < |levels|
      ensures IsRequired(levels[j], e, managerId) <==> IsFor(levels[j], e.amount, ownerManages)
    {
    }
    if IsFirstFor(levels, e.amount, ownerManages, approver) {
      var k :| 0 <= k < |levels| && levels[k].approverType == approver && IsFor(levels[k], e.amount, ownerManages)
               && (forall j :: 0 <= j < |levels| && IsFor(levels[j], e.amount, ownerManages) ==>
                     levels[k].rank < levels[j].rank || (levels[k].rank == levels[j].rank && k <= j));
      assert k == i;
    }
  }

  /** A submission publishes its status, and that it was committed if there is a budget for it. */
  lemma SubmissionPublishes(c: Config, s: State, auth: AuthUser, id: Id, submitAt: int, compliant: bool)
    requires SubmitTx(c, s, auth, id, submitAt, compliant).Ok?
    ensures var f := SubmitTx(c, s, auth, id, submitAt, compliant).value;
            var key := (f.after.departmentId.value, ResolveBudgetYear(submitAt, c.zone));
            && (BudgetCommittedEvent in f.kinds <==> key in s.budgets && s.budgets[key].isActive)
            && (ApprovedEvent in f.kinds <==> f.after.status == Approved)
            && (SubmittedEvent in f.kinds <==> f.after.status != Approved)
            && (PendingFinanceEvent in f.kinds <==> f.after.status == UnderReview)
            && (forall i, j :: 0 <= i < j < |f.kinds| ==> f.kinds[i] != f.kinds[j])
            && (forall kind :: kind in f.kinds ==>
                  kind in {ApprovedEvent, SubmittedEvent, PendingFinanceEvent, BudgetCommittedEvent})
            && f.decisions == DecisionsOn(s, id)
  {
  }

  // ---------- Drafts ----------

  lemma CreationAccepted(s: State, userId: Id, amount: int, formValid: bool)
    ensures match CreateTx(s, userId, amount, formValid)
            case Ok(next) =>
              && userId in s.users && s.users[userId].departmentId != None && formValid && 0 < amount
              && next.expenses == s.expenses[s.nextExpenseId :=
                   Expense(userId, s.users[userId].departmentId, amount, Draft, None)]
              && next == s.(expenses := next.expenses, nextExpenseId := s.nextExpenseId + 1)
            case Err(error) =>
              if userId !in s.users then error == NotFound
              else error == BadRequest && (s.users[userId].departmentId == None || !formValid || amount <= 0)
  {
  }

  /** Somebody with a right over all drafts, or over their own and owning this one. */
  predicate MayEdit(auth: AuthUser, e: Expense, any: Permission, own: Permission) {
    any in auth.grants || (own in auth.grants && e.userId == auth.id)
  }

  lemma DraftUpdateAccepted(s: State, auth: AuthUser, id: Id, amount: Option<int>, formValid: bool)
    ensures match UpdateTx(s, auth, id, amount, formValid)
            case Ok(f) =>
              && id in s.expenses && MayEdit(auth, s.expenses[id], UpdateAnyExpense, UpdateOwnExpense)
              && s.expenses[id].status == Draft && formValid
              && (amount == None ==> f.after == s.expenses[id])
              && (amount != None ==> 0 < amount.value && f.after == s.expenses[id].(amount := amount.value))
              && f.kinds == [] && f.decisions == DecisionsOn(s, id)
            case Err(error) =>
              if id !in s.expenses then error == NotFound
              else if !MayEdit(auth, s.expenses[id], UpdateAnyExpense, UpdateOwnExpense) then error == Forbidden
              else
                && error == BadRequest
                && (s.expenses[id].status != Draft || !formValid || (amount != None && amount.value <= 0))
  {
  }

  lemma RemovalAccepted(s: State, auth: AuthUser, id: Id)
    ensures match RemoveTx(s, auth, id)
            case Ok(next) =>
              && id in s.expenses && MayEdit(auth, s.expenses[id], DeleteAnyExpense, DeleteOwnExpense)
              && s.expenses[id].status == Draft
              && next == s.(expenses := next.expenses, decisions := next.decisions)
              && id !in next.expenses && id !in next.decisions
              && (forall other :: other != id ==> (other in next.expenses <==> other in s.expenses))
              && (forall other :: other in next.expenses ==> next.expenses[other] == s.expenses[other])
            case Err(error) =>
              if id !in s.expenses then error == NotFound
              else if !MayEdit(auth, s.expenses[id], DeleteAnyExpense, DeleteOwnExpense) then error == Forbidden
              else error == BadRequest && s.expenses[id].status != Draft
  {
  }

  lemma ReopeningAccepted(s: State, auth: AuthUser, id: Id, keepsSubmittedAt: bool)
    ensures match ReopenTx(s, auth, id, keepsSubmittedAt)
            case Ok(f) =>
              && id in s.expenses && s.expenses[id].userId == auth.id && s.expenses[id].status == Rejected
              && f.after.status == Draft && f.decisions == [] && f.kinds == [ReopenedEvent]
              && f.after == s.expenses[id].(status := Draft, submittedAt := f.after.submittedAt)
              && (f.after.submittedAt == s.expenses[id].submittedAt || f.after.submittedAt == None)
            case Err(error) =>
              if id !in s.expenses then error == NotFound
              else if s.expenses[id].userId != auth.id then error == Forbidden
              else error == BadRequest && s.expenses[id].status != Rejected
  {
  }

  lemma ReimbursementAccepted(s: State, auth: AuthUser, id: Id)
    ensures match ReimburseTx(s, auth, id)
            case Ok(f) =>
              && ReimburseExpenses in auth.grants && id in s.expenses && s.expenses[id].status == Approved
              && f.after == s.expenses[id].(status := Reimbursed) && f.kinds == [ReimbursedEvent]
              && f.decisions == DecisionsOn(s, id)
            case Err(error) =>
              if ReimburseExpenses !in auth.grants then error == Forbidden
              else if id !in s.expenses then error == NotFound
              else error == BadRequest && s.expenses[id].status != Approved
  {
  }

  // ---------- Budgets and people ----------

  lemma BudgetCreationAccepted(s: State, key: Key, limit: int, currentYear: int)
    ensures match CreateBudgetTx(s, key, limit, currentYear)
            case Ok(next) =>
              && 2000 <= key.1 <= 2100 && currentYear <= key.1 && 0 < limit
              && key.0 in s.departments && !s.departments[key.0].isDeleted && s.departments[key.0].isActive
              && key !in s.budgets
              && next == s.(budgets := s.budgets[key := BudgetRow(limit, true, 0, 0)])
            case Err(error) =>
              if key.1 < 2000 || 2100 < key.1 || key.1 < currentYear || limit <= 0 then error == BadRequest
              else if key.0 in s.departments && !s.departments[key.0].isDeleted && s.departments[key.0].isActive then
                error == Conflict && key in s.budgets
              else error == NotFound
  {
  }

  lemma BudgetUpdateAccepted(s: State, key: Key, limit: Option<int>, active: Option<bool>)
    ensures match UpdateBudgetTx(s, key, limit, active)
            case Ok(next) =>
              && key in s.budgets && (limit != None ==> 0 < limit.value)
              && next == s.(budgets := next.budgets) && next.budgets.Keys == s.budgets.Keys
              && (forall other :: other in s.budgets && other != key ==> next.budgets[other] == s.budgets[other])
              && var row := next.budgets[key];
              && row.committed == s.budgets[key].committed && row.reimbursed == s.budgets[key].reimbursed
              && (if limit == None then row.amountLimit == s.budgets[key].amountLimit
                  else row.amountLimit == limit.value)
              && (if active == None then row.isActive == s.budgets[key].isActive else row.isActive == active.value)
            case Err(error) =>
              if key in s.budgets then error == BadRequest && limit != None && limit.value <= 0 else error == NotFound
  {
  }

  lemma RecalculationAccepted(c: Config, s: State, key: Key, whole: bool)
    ensures match RecalculateTx(c, s, key, whole)
            case Ok(next) =>
              && 2000 <= key.1 <= 2100
              && next == s.(budgets := next.budgets) && next.budgets.Keys == s.budgets.Keys
              && (forall other :: other in s.budgets && other != key ==> next.budgets[other] == s.budgets[other])
              && (key in s.budgets ==>
                    next.budgets[key] ==
                      if whole
                      then s.budgets[key].(committed := SumPipeline(s.expenses, key, c.zone) +
                                           SumReimbursed(s.expenses, key, c.zone))
                      else s.budgets[key].(reimbursed := SumReimbursed(s.expenses, key, c.zone)))
            case Err(error) => error == BadRequest && (key.1 < 2000 || 2100 < key.1)
  {
  }

  /** An expense that counts but carries no department of its own is in some year. */
  predicate CountsUnattached(c: Config, s: State, userId: Id, year: int) {
    exists id :: id in s.expenses && s.expenses[id].userId == userId && s.expenses[id].departmentId == None
                 && s.expenses[id].status in {Submitted, UnderReview, Approved}
                 && s.expenses[id].submittedAt != None
                 && ResolveBudgetYear(s.expenses[id].submittedAt.value, c.zone) == year
  }

  lemma UnattachedExactly(c: Config, s: State, userId: Id, year: int)
    ensures year in UnattachedYears(c, s, userId) <==> CountsUnattached(c, s, userId, year)
  {
    if year in UnattachedYears(c, s, userId) {
      var id :| id in s.expenses && s.expenses[id].userId == userId && s.expenses[id].departmentId.None?
                && s.expenses[id].submittedAt.Some? && CountsTowardCommitted(s.expenses[id].status)
                && ResolveBudgetYear(s.expenses[id].submittedAt.value, c.zone) == year;
      assert s.expenses[id].status in {Submitted, UnderReview, Approved};
    }
  }

  /** A row that the move of a user recalculates: of either department, in a year in which the user has
      an unattached expense. */
  predicate IsMovedRow(c: Config, s: State, userId: Id, next: Option<Id>, key: Key)
    requires userId in s.users
  {
    && s.users[userId].departmentId != next
    && (s.users[userId].departmentId == Some(key.0) || next == Some(key.0))
    && CountsUnattached(c, s, userId, key.1)
  }

  lemma UnattachedInBounds(c: Config, s: State, userId: Id)
    ensures (exists year :: year in UnattachedYears(c, s, userId) && !ValidYear(year)) <==>
            !(forall year :: CountsUnattached(c, s, userId, year) ==> 2000 <= year <= 2100)
  {
    forall year: int
      ensures year in UnattachedYears(c, s, userId) <==> CountsUnattached(c, s, userId, year)
    {
      UnattachedExactly(c, s, userId, year);
    }
  }

  lemma MoveAccepted(c: Config, s: State, userId: Id, next: Option<Id>)
    ensures MoveUserTx(c, s, userId, next).Ok? <==>
              && userId in s.users
              && (s.users[userId].departmentId != next ==>
                    forall year :: CountsUnattached(c, s, userId, year) ==> 2000 <= year <= 2100)
    ensures MoveUserTx(c, s, userId, next).Err? ==>
              MoveUserTx(c, s, userId, next).error == if userId in s.users then BadRequest else NotFound
  {
    UnattachedInBounds(c, s, userId);
  }

  /** The user ends in the new department, the rows that may have changed hold full sums, and the user
      leads the old department no more. Nothing else changes. */
  lemma MoveLeaves(c: Config, s: State, userId: Id, next: Option<Id>)
    requires MoveUserTx(c, s, userId, next).Ok?
    ensures var end := MoveUserTx(c, s, userId, next).value;
            var previous := s.users[userId].departmentId;
            && end == s.(users := end.users, budgets := end.budgets, departments := end.departments)
            && end.users == s.users[userId := s.users[userId].(departmentId := next)]
            && end.budgets.Keys == s.budgets.Keys
            && (forall key :: key in s.budgets ==> MovedRow(c, s, userId, next, end, key))
            && end.departments.Keys == s.departments.Keys
            && (forall d :: d in s.departments ==>
                  end.departments[d] ==
                    if previous == Some(d) && previous != next && !s.departments[d].isDeleted
                       && s.departments[d].managerId == Some(userId)
                    then s.departments[d].(managerId := None) else s.departments[d])
  {
    var end := MoveUserTx(c, s, userId, next).value;
    forall key | key in s.budgets
      ensures key in end.budgets && MovedRow(c, s, userId, next, end, key)
    {
      UnattachedExactly(c, s, userId, key.1);
    }
  }

  predicate MovedRow(c: Config, s: State, userId: Id, next: Option<Id>, end: State, key: Key)
    requires userId in s.users && key in s.budgets
  {
    key in end.budgets &&
    end.budgets[key] ==
      if IsMovedRow(c, s, userId, next, key)
      then s.budgets[key].(committed := SumPipeline(s.expenses, key, c.zone) + SumReimbursed(s.expenses, key, c.zone))
      else s.budgets[key]
  }
}
