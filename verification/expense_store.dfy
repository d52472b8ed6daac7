/** The expense services over their tables, statement by statement. Every public method is one
    transaction: it either commits what the lifecycle prescribes or restores what it found. */
module ExpenseStore {
  import opened Domain
  import opened BudgetPeriod
  import opened BudgetLedger
  import opened ApprovalRouting
  import opened ApprovalAccess
  import opened ExpenseLifecycle
  import opened ExpenseInvariants

  /** How a transaction on one expense ended. */
  ghost predicate Committed(c: Config, before: State, tx: Result<Effect>, thrown: Option<Error>, after: State)
    requires tx.Ok? ==> tx.value.id in before.expenses
  {
    match tx
    case Ok(f) => thrown == None && after == Commit(c, before, f)
    case Err(error) => thrown == Some(error) && after == before
  }

  /** The same before the rollback: on an error the tables may have been written already. */
  ghost predicate Attempted(c: Config, before: State, tx: Result<Effect>, thrown: Option<Error>, after: State)
    requires tx.Ok? ==> tx.value.id in before.expenses
  {
    match tx
    case Ok(f) => thrown == None && after == Commit(c, before, f)
    case Err(error) => thrown == Some(error)
  }

  /** A committed or rolled back transaction is a step of the lifecycle. */
  lemma CommittedIsStep(c: Config, before: State, a: Action, thrown: Option<Error>, after: State)
    requires SavesExpense(a) && Committed(c, before, Save(c, before, a), thrown, after)
    ensures after == Step(c, before, a) && (thrown.None? <==> Perform(c, before, a).Ok?)
  {
  }

  /** How a transaction that replaces whole tables ended. */
  ghost predicate Applied(before: State, tx: Result<State>, thrown: Option<Error>, after: State) {
    match tx
    case Ok(next) => thrown == None && after == next
    case Err(error) => thrown == Some(error) && after == before
  }

  lemma DraftsBookNothing(rows: map<Key, BudgetRow>, a: Snapshot, b: Snapshot, after: Snapshot, members: Members,
                          zone: FixedZone)
    requires a.status == Draft && b.status == Draft
    ensures Synced(rows, Some(a), Some(after), members, zone) == Synced(rows, Some(b), Some(after), members, zone)
  {
  }

  /** `filled` is the draft with its department filled in. */
  datatype Submission = Submission(filled: Expense, after: Expense, hasBudget: bool)

  class Store {
    const config: Config
    const ledger: BudgetTable
    var expenses: map<Id, Expense>
    var nextExpenseId: Id
    var decisions: map<Id, seq<Decision>>
    var levels: seq<Level>
    var departments: map<Id, Department>
    var users: map<Id, User>
    var delegations: seq<Delegation>
    var events: seq<Event>

    constructor (config: Config)
      ensures this.config == config && fresh(ledger)
      ensures IsInitial(Current())
    {
      this.config := config;
      ledger := new BudgetTable();
      expenses, nextExpenseId, decisions, levels := map[], 1, map[], [];
      departments, users, delegations, events := map[], map[], [], [];
    }

    function Current(): State
      reads this, ledger
    {
      State(expenses, nextExpenseId, decisions, levels, departments, users, delegations, ledger.rows, events)
    }

    method Rollback(saved: State)
      modifies this, ledger
      ensures Current() == saved
    {
      expenses, nextExpenseId, decisions, levels := saved.expenses, saved.nextExpenseId, saved.decisions, saved.levels;
      departments, users, delegations, events := saved.departments, saved.users, saved.delegations, saved.events;
      ledger.rows := saved.budgets;
    }

    method Publish(id: Id, kind: EventKind)
      modifies this`events
      ensures events == old(events) + [Event(id, kind)]
    {
      events := events + [Event(id, kind)];
    }

    /** The expense is written, then the ledger follows. */
    method SaveAndSync(id: Id, before: Expense, after: Expense)
      modifies this`expenses, ledger
      ensures expenses == old(expenses)[id := after]
      ensures ledger.rows == Synced(old(ledger.rows), Some(ToSnapshot(before)), Some(ToSnapshot(after)),
                                    MembersOf(users), config.zone)
    {
      expenses := expenses[id := after];
      ledger.SyncCommittedAmountForExpenseTransition(Some(ToSnapshot(before)), Some(ToSnapshot(after)),
                                                     MembersOf(users), config.zone);
    }

    method Create(userId: Id, amount: int, formValid: bool) returns (thrown: Option<Error>)
      modifies this
      ensures Applied(old(Current()), CreateTx(old(Current()), userId, amount, formValid), thrown, Current())
    {
      if userId !in users {
        return Some(NotFound);
      }
      var department := users[userId].departmentId;
      if department.None? || !formValid || amount <= 0 {
        return Some(BadRequest);
      }
      expenses := expenses[nextExpenseId := Expense(userId, department, amount, Draft, None)];
      nextExpenseId := nextExpenseId + 1;
      return None;
    }

    method Update(auth: AuthUser, id: Id, amount: Option<int>, formValid: bool) returns (thrown: Option<Error>)
      modifies this, ledger
      ensures Committed(config, old(Current()), UpdateTx(old(Current()), auth, id, amount, formValid), thrown,
                        Current())
    {
      if id !in expenses {
        return Some(NotFound);
      }
      var before := expenses[id];
      if !MayMutateDraft(auth, before.userId, UpdateAnyExpense, UpdateOwnExpense) {
        return Some(Forbidden);
      }
      if before.status != Draft || !formValid || (amount.Some? && amount.value <= 0) {
        return Some(BadRequest);
      }
      var after := before;
      if amount.Some? {
        after := after.(amount := amount.value);
      }
      SaveAndSync(id, before, after);
      assert events == events + EventsFor(id, []);
      return None;
    }

    method Remove(auth: AuthUser, id: Id) returns (thrown: Option<Error>)
      modifies this
      ensures Applied(old(Current()), RemoveTx(old(Current()), auth, id), thrown, Current())
    {
      if id !in expenses {
        return Some(NotFound);
      }
      if !MayMutateDraft(auth, expenses[id].userId, DeleteAnyExpense, DeleteOwnExpense) {
        return Some(Forbidden);
      }
      if expenses[id].status != Draft {
        return Some(BadRequest);
      }
      expenses := expenses - {id};
      decisions := decisions - {id};
      return None;
    }

    /** Reopening deletes the decisions and does not touch the ledger. */
    method Reopen(auth: AuthUser, id: Id, keepsSubmittedAt: bool) returns (thrown: Option<Error>)
      modifies this
      ensures Committed(config, old(Current()), ReopenTx(old(Current()), auth, id, keepsSubmittedAt), thrown, Current())
    {
      if id !in expenses {
        return Some(NotFound);
      }
      var locked := expenses[id];
      if locked.userId != auth.id {
        return Some(Forbidden);
      }
      if locked.status != Rejected {
        return Some(BadRequest);
      }
      var after := locked.(status := Draft, submittedAt := if keepsSubmittedAt then locked.submittedAt else None);
      if RowsFor(decisions, id) != [] {
        decisions := decisions - {id};
      }
      expenses := expenses[id := after];
      Publish(id, ReopenedEvent);
      UncountedTransitionLeavesRows(ledger.rows, ToSnapshot(locked), ToSnapshot(after), MembersOf(users), config.zone);
      assert EventsFor(id, [ReopenedEvent]) == [Event(id, ReopenedEvent)];
      return None;
    }

    method Submit(auth: AuthUser, id: Id, submitAt: int, compliant: bool) returns (thrown: Option<Error>)
      modifies this, ledger
      ensures Committed(config, old(Current()), SubmitTx(config, old(Current()), auth, id, submitAt, compliant), thrown,
                        Current())
    {
      var prepared := PrepareSubmission(auth, id, submitAt, compliant);
      if prepared.Err? {
        return Some(prepared.error);
      }
      var submission := prepared.value;
      WriteSubmission(id, submission.filled, submission.after, submission.hasBudget);
      return None;
    }

    /** The checks of a submission, in order, and what it will write. */
    method PrepareSubmission(auth: AuthUser, id: Id, submitAt: int,
                             compliant: bool) returns (prepared: Result<Submission>)
      ensures match SubmitTx(config, Current(), auth, id, submitAt, compliant)
              case Err(error) => prepared == Err(error)
              case Ok(f) =>
                && prepared.Ok? && f.after == prepared.value.after && f.decisions == DecisionsOn(Current(), id)
                && f.kinds == SubmitEvents(f.after.status, prepared.value.hasBudget)
                && expenses[id].status == Draft && prepared.value.filled.status == Draft
                && (f.after.status == Approved || f.after.status == UnderReview || f.after.status == Submitted)
    {
      if id !in expenses {
        return Err(NotFound);
      }
      var e := expenses[id];
      if e.userId != auth.id {
        return Err(Forbidden);
      }
      if e.status != Draft || !compliant || e.amount <= 0 {
        return Err(BadRequest);
      }
      if e.departmentId.None? {
        if e.userId !in users || users[e.userId].departmentId.None? {
          return Err(BadRequest);
        }
        e := e.(departmentId := users[e.userId].departmentId);
      }
      var departmentId := e.departmentId.value;
      var manager := ActiveManagerOf(Current(), departmentId);
      if NeedsDepartmentManager(levels) && !SkipsDepartmentManager(e.userId, manager) && manager.None? {
        return Err(BadRequest);
      }
      var required := RequiredLevels(e, levels, manager);
      var key := (departmentId, ResolveBudgetYear(submitAt, config.zone));
      if !ValidYear(key.1) {
        return Err(BadRequest);
      }
      if !DepartmentExists(Current(), departmentId) {
        return Err(NotFound);
      }
      if !BudgetAllows(config, Current(), key, e.amount) {
        return Err(BadRequest);
      }
      var after := e.(submittedAt := Some(submitAt), status := InitialSubmitStatus(required));
      return Ok(Submission(e, after, ActiveBudget(Current(), key).Some?));
    }

    /** The writes of a submission. */
    method WriteSubmission(id: Id, filled: Expense, after: Expense, hasBudget: bool)
      requires id in expenses && expenses[id].status == Draft && filled.status == Draft
      requires after.status == Approved || after.status == UnderReview || after.status == Submitted
      modifies this, ledger
      ensures Current() == Commit(config, old(Current()),
                                  Effect(id, after, DecisionsOn(old(Current()), id),
                                         SubmitEvents(after.status, hasBudget)))
    {
      ghost var start := Current();
      DraftsBookNothing(ledger.rows, ToSnapshot(filled), ToSnapshot(expenses[id]), ToSnapshot(after), MembersOf(users),
                        config.zone);
      SaveAndSync(id, filled, after);
      if after.status == Approved {
        Publish(id, ApprovedEvent);
      } else {
        Publish(id, SubmittedEvent);
        if after.status == UnderReview {
          Publish(id, PendingFinanceEvent);
        }
      }
      if hasBudget {
        Publish(id, BudgetCommittedEvent);
      }
      assert events == start.events + EventsFor(id, SubmitEvents(after.status, hasBudget));
    }

    /** An expense whose chain has become empty is marked approved; the caller then throws. */
    method HealExpenseWithNoApprovalChain(id: Id) returns (healed: bool)
      requires id in expenses
      modifies this`expenses, ledger
      ensures healed <==> IsPending(old(expenses)[id].status) && Required(old(Current()), old(expenses)[id]) == []
      ensures expenses == if healed then old(expenses)[id := old(expenses)[id].(status := Approved)] else old(expenses)
      ensures ledger.rows == if healed
                             then Synced(old(ledger.rows), Some(ToSnapshot(old(expenses)[id])),
                                         Some(ToSnapshot(old(expenses)[id].(status := Approved))), MembersOf(users),
                                         config.zone)
                             else old(ledger.rows)
    {
      var e := expenses[id];
      if !IsPending(e.status) || Required(Current(), e) != [] {
        return false;
      }
      SaveAndSync(id, e, e.(status := Approved));
      return true;
    }

    /** The guards shared by both decisions. */
    method FindStageToDecide(auth: AuthUser, id: Id, now: int) returns (stage: Result<Level>)
      modifies this`expenses, ledger
      ensures stage == StageToDecide(old(Current()), auth, id, now)
      ensures stage.Ok? ==> Current() == old(Current())
    {
      if id !in expenses {
        return Err(NotFound);
      }
      var e := expenses[id];
      if e.userId == auth.id {
        return Err(Forbidden);
      }
      if !CanDecideOnExpense(auth, e, users) {
        return Err(Forbidden);
      }
      var existing := DecisionsOn(Current(), id);
      var managerId := ManagerOf(Current(), e.departmentId);
      var active := GetActiveStage(e, levels, managerId, existing);
      if active.None? {
        var healed := HealExpenseWithNoApprovalChain(id);
        return Err(Conflict);
      }
      if !ReadyForStage(active.value, e, Required(Current(), e), existing) {
        return Err(Conflict);
      }
      if !CanActOnStage(auth, e, active.value, users) {
        var delegated := CanActAsDelegate(auth, e, active.value, delegations, users, departments, now);
        if !delegated {
          return Err(Forbidden);
        }
      }
      return Ok(active.value);
    }

    /** The insert fails on the unique key (expense, level). */
    method PersistDecision(id: Id, d: Decision) returns (thrown: Option<Error>)
      modifies this`decisions
      ensures thrown == if DecisionAt(RowsFor(old(decisions), id), d.levelId).Some? then Some(Conflict) else None
      ensures decisions == if thrown.None? then old(decisions)[id := RowsFor(old(decisions), id) + [d]]
                           else old(decisions)
    {
      var existing := RowsFor(decisions, id);
      if DecisionAt(existing, d.levelId).Some? {
        return Some(Conflict);
      }
      decisions := decisions[id := existing + [d]];
      return None;
    }

    method Approve(auth: AuthUser, id: Id, hasComment: bool, acknowledged: bool,
                   now: int) returns (thrown: Option<Error>)
      modifies this, ledger
      ensures Committed(config, old(Current()),
                        ApproveTx(config, old(Current()), auth, id, hasComment, acknowledged, now),
                        thrown, Current())
    {
      var saved := Current();
      thrown := ApproveInTransaction(auth, id, hasComment, acknowledged, now);
      if thrown.Some? {
        Rollback(saved);
      }
    }

    /** The writes of a decision: the decision, the expense with its ledger, one or two events. */
    method WriteDecision(id: Id, d: Decision, status: Status, kinds: seq<EventKind>)
      requires id in expenses && DecisionAt(RowsFor(decisions, id), d.levelId).None?
      modifies this, ledger
      ensures Current() == Commit(config, old(Current()),
                                  Effect(id, old(expenses)[id].(status := status),
                                         DecisionsOn(old(Current()), id) + [d], kinds))
    {
      ghost var start := Current();
      var e := expenses[id];
      var conflict := PersistDecision(id, d);
      SaveAndSync(id, e, e.(status := status));
      for i := 0 to |kinds|
        invariant Current() ==
                    start.(expenses := expenses, decisions := decisions, budgets := ledger.rows, events := events)
        invariant expenses == start.expenses[id := e.(status := status)]
        invariant decisions == start.decisions[id := RowsFor(start.decisions, id) + [d]]
        invariant ledger.rows == Synced(start.budgets, Some(ToSnapshot(e)), Some(ToSnapshot(e.(status := status))),
                                        MembersOf(start.users), config.zone)
        invariant events == start.events + EventsFor(id, kinds[..i])
      {
        Publish(id, kinds[i]);
        assert EventsFor(id, kinds[..i + 1]) == EventsFor(id, kinds[..i]) + [Event(id, kinds[i])];
      }
      assert kinds[..|kinds|] == kinds;
    }

    method ApproveInTransaction(auth: AuthUser, id: Id, hasComment: bool, acknowledged: bool, now: int)
      returns (thrown: Option<Error>)
      modifies this, ledger
      ensures Attempted(config, old(Current()),
                        ApproveTx(config, old(Current()), auth, id, hasComment, acknowledged, now),
                        thrown, Current())
    {
      var stage := FindStageToDecide(auth, id, now);
      if stage.Err? {
        return Some(stage.error);
      }
      var e := expenses[id];
      var required := Required(Current(), e);
      var objection := OverBudgetObjection(config, Current(), e, stage.value, hasComment, acknowledged, now);
      if objection.Some? {
        return objection;
      }
      ActiveStageIsUndecided(e, required, RowsFor(decisions, id));
      var status := StatusAfterLevelApproval(stage.value, required);
      WriteDecision(id, Decision(stage.value.id, auth.id, VerdictApproved), status,
                    if status == UnderReview then [PendingFinanceEvent] else [ApprovedEvent]);
      return None;
    }

    method Reject(auth: AuthUser, id: Id, hasComment: bool, now: int) returns (thrown: Option<Error>)
      modifies this, ledger
      ensures Committed(config, old(Current()), RejectTx(old(Current()), auth, id, hasComment, now), thrown, Current())
    {
      if !hasComment {
        return Some(BadRequest);
      }
      var saved := Current();
      thrown := RejectInTransaction(auth, id, now);
      if thrown.Some? {
        Rollback(saved);
      }
    }

    method RejectInTransaction(auth: AuthUser, id: Id, now: int) returns (thrown: Option<Error>)
      modifies this, ledger
      ensures Attempted(config, old(Current()), RejectTx(old(Current()), auth, id, true, now), thrown, Current())
    {
      var stage := FindStageToDecide(auth, id, now);
      if stage.Err? {
        return Some(stage.error);
      }
      ActiveStageIsUndecided(expenses[id], Required(Current(), expenses[id]), RowsFor(decisions, id));
      WriteDecision(id, Decision(stage.value.id, auth.id, VerdictRejected), Rejected,
                    [CommentAddedEvent, RejectedEvent]);
      return None;
    }

    method Reimburse(auth: AuthUser, id: Id) returns (thrown: Option<Error>)
      modifies this, ledger
      ensures Committed(config, old(Current()), ReimburseTx(old(Current()), auth, id), thrown, Current())
    {
      ghost var start := Current();
      if ReimburseExpenses !in auth.grants {
        return Some(Forbidden);
      }
      if id !in expenses {
        return Some(NotFound);
      }
      var e := expenses[id];
      if e.status != Approved {
        return Some(BadRequest);
      }
      SaveAndSync(id, e, e.(status := Reimbursed));
      Publish(id, ReimbursedEvent);
      assert events == start.events + EventsFor(id, [ReimbursedEvent]);
      return None;
    }

    // ---------- Budgets and people ----------

    method CreateBudget(key: Key, limit: int, currentYear: int) returns (thrown: Option<Error>)
      modifies ledger
      ensures Applied(old(Current()), CreateBudgetTx(old(Current()), key, limit, currentYear), thrown, Current())
    {
      if !ValidYear(key.1) || key.1 < currentYear || limit <= 0 {
        return Some(BadRequest);
      }
      if !DepartmentExists(Current(), key.0) || !departments[key.0].isActive {
        return Some(NotFound);
      }
      if key in ledger.rows {
        return Some(Conflict);
      }
      ledger.rows := ledger.rows[key := BudgetRow(limit, true, 0, 0)];
      return None;
    }

    method UpdateBudget(key: Key, limit: Option<int>, active: Option<bool>) returns (thrown: Option<Error>)
      modifies ledger
      ensures Applied(old(Current()), UpdateBudgetTx(old(Current()), key, limit, active), thrown, Current())
    {
      if key !in ledger.rows {
        return Some(NotFound);
      }
      var row := ledger.rows[key];
      if limit.Some? {
        if limit.value <= 0 {
          return Some(BadRequest);
        }
        row := row.(amountLimit := limit.value);
      }
      if active.Some? {
        row := row.(isActive := active.value);
      }
      ledger.rows := ledger.rows[key := row];
      return None;
    }

    method Recalculate(key: Key, whole: bool) returns (thrown: Option<Error>)
      modifies ledger
      ensures Applied(old(Current()), RecalculateTx(config, old(Current()), key, whole), thrown, Current())
    {
      if !ValidYear(key.1) {
        return Some(BadRequest);
      }
      if whole {
        ledger.RecalculateCommitted(expenses, key.0, key.1, config.zone);
      } else {
        ledger.RecalculateReimbursed(expenses, key.0, key.1, config.zone);
      }
      return None;
    }

    /** One department in all the years, up to the first year that is out of bounds. */
    method RecalculateYears(departmentId: Id, years: set<int>) returns (thrown: Option<Error>)
      modifies ledger
      ensures thrown == if exists year :: year in years && !ValidYear(year) then Some(BadRequest) else None
      ensures thrown.None? ==>
                ledger.rows == RecalculatedOver(old(ledger.rows), expenses, {departmentId}, years, config.zone)
    {
      var todo := years;
      ghost var done := {};
      while todo != {}
        invariant done + todo == years
        invariant forall year :: year in done ==> ValidYear(year)
        invariant ledger.rows == RecalculatedOver(old(ledger.rows), expenses, {departmentId}, done, config.zone)
        decreases |todo|
      {
        var year := PickAny(todo);
        OneMoreYear(old(ledger.rows), expenses, departmentId, done, year, config.zone);
        thrown := Recalculate((departmentId, year), true);
        if thrown.Some? {
          return thrown;
        }
        done := done + {year};
        todo := todo - {year};
      }
      return None;
    }

    method RecalculateDepartments(departmentIds: seq<Id>, years: set<int>) returns (thrown: Option<Error>)
      requires departmentIds != []
      modifies ledger
      ensures thrown == if exists year :: year in years && !ValidYear(year) then Some(BadRequest) else None
      ensures thrown.None? ==>
                ledger.rows == RecalculatedOver(old(ledger.rows), expenses, AsSet(departmentIds), years, config.zone)
    {
      ghost var start := ledger.rows;
      NothingRecalculated(start, expenses, {}, years, config.zone);
      for i := 0 to |departmentIds|
        invariant ledger.rows == RecalculatedOver(start, expenses, AsSet(departmentIds[..i]), years, config.zone)
        invariant 0 < i ==> forall year :: year in years ==> ValidYear(year)
      {
        OneMoreDepartment(start, expenses, AsSet(departmentIds[..i]), departmentIds[i], years, config.zone);
        assert AsSet(departmentIds[..i + 1]) == AsSet(departmentIds[..i]) + {departmentIds[i]};
        thrown := RecalculateYears(departmentIds[i], years);
        if thrown.Some? {
          return thrown;
        }
      }
      assert departmentIds[..|departmentIds|] == departmentIds;
      return None;
    }

    /** Both departments of a user who moves, in the years of the user's unattached expenses. */
    method SyncUserDepartmentChange(userId: Id, previous: Option<Id>, next: Option<Id>) returns (thrown: Option<Error>)
      modifies ledger
      ensures var years := if previous == next then {} else UnattachedYears(config, old(Current()), userId);
              && thrown == (if exists year :: year in years && !ValidYear(year) then Some(BadRequest) else None)
              && (thrown.None? ==>
                    ledger.rows == RecalculatedOver(old(ledger.rows), expenses, AsSet(Listed(previous) + Listed(next)),
                                                    years, config.zone))
    {
      var years := if previous == next then {} else UnattachedYears(config, Current(), userId);
      if years == {} {
        NothingRecalculated(ledger.rows, expenses, AsSet(Listed(previous) + Listed(next)), years, config.zone);
        return None;
      }
      thrown := RecalculateDepartments(Listed(previous) + Listed(next), years);
    }

    /** The user's row, the ledger of both departments, and the manager of the one left behind. */
    method MoveUser(userId: Id, next: Option<Id>) returns (thrown: Option<Error>)
      modifies this, ledger
      ensures Applied(old(Current()), MoveUserTx(config, old(Current()), userId, next), thrown, Current())
    {
      if userId !in users {
        return Some(NotFound);
      }
      var saved := Current();
      var previous := users[userId].departmentId;
      users := users[userId := users[userId].(departmentId := next)];
      assert UnattachedYears(config, Current(), userId) == UnattachedYears(config, saved, userId);
      thrown := SyncUserDepartmentChange(userId, previous, next);
      if thrown.Some? {
        Rollback(saved);
        return thrown;
      }
      if previous.Some? && previous != next && DepartmentExists(Current(), previous.value)
         && departments[previous.value].managerId == Some(userId)
      {
        departments := departments[previous.value := departments[previous.value].(managerId := None)];
      }
      return None;
    }

    /** Levels, departments, users and delegations are edited elsewhere; the result arrives here. */
    method Edit(a: Action) returns (thrown: Option<Error>)
      requires a.EditLevels? || a.PutDepartment? || a.PutUser? || a.EditDelegations?
      modifies this
      ensures Applied(old(Current()), PerformOther(config, old(Current()), a), thrown, Current())
    {
      match a {
        case EditLevels(edited) =>
          if !DistinctIds(edited) {
            return Some(Conflict);
          }
          levels := edited;
        case PutDepartment(d, department) => departments := departments[d := department];
        case PutUser(u, user) => users := users[u := user];
        case EditDelegations(edited) => delegations := edited;
      }
      return None;
    }

    // ---------- Requests ----------

    /** Every request is one step of the lifecycle, and keeps what its steps keep. */
    method Handle(a: Action) returns (thrown: Option<Error>)
      modifies this, ledger
      ensures Current() == Step(config, old(Current()), a)
      ensures thrown.None? <==> Perform(config, old(Current()), a).Ok?
      ensures old(Consistent(Current())) ==> Consistent(Current())
    {
      ghost var before := Current();
      if SavesExpense(a) {
        thrown := HandleSave(a);
        CommittedIsStep(config, before, a, thrown, Current());
      } else {
        thrown := HandleOther(a);
      }
      if Consistent(before) { StepKeepsConsistent(config, before, a); }
    }

    method HandleOther(a: Action) returns (thrown: Option<Error>)
      requires !SavesExpense(a)
      modifies this, ledger
      ensures Applied(old(Current()), PerformOther(config, old(Current()), a), thrown, Current())
    {
      match a
      case Create(userId, amount, formValid) => thrown := Create(userId, amount, formValid);
      case Remove(auth, id) => thrown := Remove(auth, id);
      case CreateBudget(key, limit, currentYear) => thrown := CreateBudget(key, limit, currentYear);
      case UpdateBudget(key, newLimit, active) => thrown := UpdateBudget(key, newLimit, active);
      case Recalculate(key, whole) => thrown := Recalculate(key, whole);
      case MoveUser(userId, next) => thrown := MoveUser(userId, next);
      case EditLevels(_) => thrown := Edit(a);
      case PutDepartment(_, _) => thrown := Edit(a);
      case PutUser(_, _) => thrown := Edit(a);
      case EditDelegations(_) => thrown := Edit(a);
    }

    method HandleSave(a: Action) returns (thrown: Option<Error>)
      requires SavesExpense(a)
      modifies this, ledger
      ensures Committed(config, old(Current()), Save(config, old(Current()), a), thrown, Current())
    {
      match a
      case Update(auth, id, newAmount, formValid) => thrown := Update(auth, id, newAmount, formValid);
      case Submit(auth, id, submitAt, compliant) => thrown := Submit(auth, id, submitAt, compliant);
      case Approve(auth, id, hasComment, acknowledged, now) =>
        thrown := Approve(auth, id, hasComment, acknowledged, now);
      case Reject(auth, id, hasComment, now) => thrown := Reject(auth, id, hasComment, now);
      case Reopen(auth, id, keepsSubmittedAt) => thrown := Reopen(auth, id, keepsSubmittedAt);
      case Reimburse(auth, id) => thrown := Reimburse(auth, id);
    }

    /** Requests handled one after the other are a run of the lifecycle. */
    method HandleAll(actions: seq<Action>)
      modifies this, ledger
      ensures Current() == Run(config, old(Current()), actions)
      ensures old(Consistent(Current())) ==> Consistent(Current())
    {
      ghost var start := Current();
      for i := 0 to |actions|
        invariant Current() == Run(config, start, actions[..i])
        invariant old(Consistent(Current())) ==> Consistent(Current())
      {
        assert actions[..i + 1][..i] == actions[..i];
        var thrown := Handle(actions[i]);
      }
      assert actions[..|actions|] == actions;
    }
  }

  lemma ActiveStageIsUndecided(e: Expense, required: seq<Level>, ds: seq<Decision>)
    requires ActiveStage(e, required, ds).Some?
    ensures DecisionAt(ds, ActiveStage(e, required, ds).value.id).None?
  {
    var i :| IsFirstOpen(required, ds, i) && ActiveStage(e, required, ds).value == required[i];
  }
}
