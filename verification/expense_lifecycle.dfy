/** The expense lifecycle as a state machine. Each function named `...Tx` below is one database
    transaction: it yields what the transaction commits, or the error that rolled it back. */
module ExpenseLifecycle {
  import opened Domain
  import opened BudgetPeriod
  import opened BudgetLedger
  import opened ApprovalRouting
  import opened ApprovalAccess

  datatype Config = Config(zone: FixedZone, blockOverspend: bool)

  datatype EventKind =
    | SubmittedEvent
    | PendingFinanceEvent
    | ApprovedEvent
    | RejectedEvent
    | ReopenedEvent
    | ReimbursedEvent
    | CommentAddedEvent
    | BudgetCommittedEvent

  /** An outbox row, in append order, with the expense its payload names. */
  datatype Event = Event(expenseId: Id, kind: EventKind)

  datatype State = State(
    expenses: map<Id, Expense>,
    nextExpenseId: Id,
    decisions: map<Id, seq<Decision>>,
    levels: seq<Level>,
    departments: map<Id, Department>,
    users: map<Id, User>,
    delegations: seq<Delegation>,
    budgets: map<Key, BudgetRow>,
    events: seq<Event>)

  // ---------- Reading the tables ----------

  function MembersOf(users: map<Id, User>): Members {
    map u | u in users :: users[u].departmentId
  }

  function RowsFor(table: map<Id, seq<Decision>>, id: Id): seq<Decision> {
    if id in table then table[id] else []
  }

  function DecisionsOn(s: State, id: Id): seq<Decision> {
    RowsFor(s.decisions, id)
  }

  predicate DepartmentExists(s: State, d: Id) {
    d in s.departments && !s.departments[d].isDeleted
  }

  /** The manager seen through the expense's department relation. */
  function ManagerOf(s: State, departmentId: Option<Id>): Option<Id> {
    if departmentId.Some? && DepartmentExists(s, departmentId.value)
    then s.departments[departmentId.value].managerId
    else None
  }

  /** The manager that submission looks up: only active departments are considered. */
  function ActiveManagerOf(s: State, d: Id): Option<Id> {
    if DepartmentExists(s, d) && s.departments[d].isActive then s.departments[d].managerId else None
  }

  function Required(s: State, e: Expense): seq<Level> {
    RequiredLevels(e, s.levels, ManagerOf(s, e.departmentId))
  }

  predicate ValidYear(year: int) {
    2000 <= year <= 2100
  }

  function ActiveBudget(s: State, key: Key): Option<BudgetRow> {
    if key in s.budgets && s.budgets[key].isActive then Some(s.budgets[key]) else None
  }

  // ---------- Writing an expense ----------

  /** What a transaction on one expense saves: its new row, its decisions, and the events. */
  datatype Effect = Effect(id: Id, after: Expense, decisions: seq<Decision>, kinds: seq<EventKind>)

  /** The decision table with the rows of one expense replaced. */
  function PutDecisions(table: map<Id, seq<Decision>>, id: Id, ds: seq<Decision>): map<Id, seq<Decision>> {
    if ds == RowsFor(table, id) then table
    else if ds == [] then table - {id}
    else table[id := ds]
  }

  /** Save the effect, move the ledger from the old to the new row, append the events. */
  function Commit(c: Config, s: State, f: Effect): State
    requires f.id in s.expenses
  {
    s.(expenses := s.expenses[f.id := f.after],
       decisions := PutDecisions(s.decisions, f.id, f.decisions),
       budgets := Synced(s.budgets, Some(ToSnapshot(s.expenses[f.id])), Some(ToSnapshot(f.after)),
                         MembersOf(s.users), c.zone),
       events := s.events + EventsFor(f.id, f.kinds))
  }

  function EventsFor(id: Id, kinds: seq<EventKind>): seq<Event> {
    seq(|kinds|, i requires 0 <= i < |kinds| => Event(id, kinds[i]))
  }

  // ---------- Drafts ----------

  /** `formValid` stands for the checks on title and incurred date. */
  function CreateTx(s: State, userId: Id, amount: int, formValid: bool): Result<State> {
    if userId !in s.users then Err(NotFound)
    else if s.users[userId].departmentId.None? || !formValid || amount <= 0 then Err(BadRequest)
    else Ok(s.(expenses := s.expenses[s.nextExpenseId :=
                 Expense(userId, s.users[userId].departmentId, amount, Draft, None)],
               nextExpenseId := s.nextExpenseId + 1))
  }

  /** `formValid` also stands for the read check before the transaction. */
  function UpdateTx(s: State, auth: AuthUser, id: Id, amount: Option<int>, formValid: bool): (r: Result<Effect>)
    ensures r.Ok? ==> r.value.id == id && id in s.expenses
  {
    if id !in s.expenses then Err(NotFound)
    else
      var e := s.expenses[id];
      if !MayMutateDraft(auth, e.userId, UpdateAnyExpense, UpdateOwnExpense) then Err(Forbidden)
      else if e.status != Draft || !formValid || (amount.Some? && amount.value <= 0) then Err(BadRequest)
      else Ok(Effect(id, if amount.Some? then e.(amount := amount.value) else e, DecisionsOn(s, id), []))
  }

  function RemoveTx(s: State, auth: AuthUser, id: Id): Result<State> {
    if id !in s.expenses then Err(NotFound)
    else if !MayMutateDraft(auth, s.expenses[id].userId, DeleteAnyExpense, DeleteOwnExpense) then Err(Forbidden)
    else if s.expenses[id].status != Draft then Err(BadRequest)
    else Ok(s.(expenses := s.expenses - {id}, decisions := s.decisions - {id}))
  }

  /** Whether the save clears `submitted_at` is left open: `keepsSubmittedAt`. */
  function ReopenTx(s: State, auth: AuthUser, id: Id, keepsSubmittedAt: bool): (r: Result<Effect>)
    ensures r.Ok? ==> r.value.id == id && id in s.expenses
  {
    if id !in s.expenses then Err(NotFound)
    else
      var e := s.expenses[id];
      if e.userId != auth.id then Err(Forbidden)
      else if e.status != Rejected then Err(BadRequest)
      else
        var after := e.(status := Draft, submittedAt := if keepsSubmittedAt then e.submittedAt else None);
        Ok(Effect(id, after, [], [ReopenedEvent]))
  }

  // ---------- Submission ----------

  predicate NeedsDepartmentManager(levels: seq<Level>) {
    exists level :: level in levels && level.isActive && level.approverType == DepartmentManager
  }

  /** The budget check on the row that the submission will be booked on. */
  predicate BudgetAllows(c: Config, s: State, key: Key, amount: int) {
    var row := ActiveBudget(s, key);
    row.None? || !c.blockOverspend || row.value.committed + amount <= row.value.amountLimit
  }

  function SubmitEvents(status: Status, hasBudget: bool): seq<EventKind> {
    (if status == Approved then [ApprovedEvent]
     else if status == UnderReview then [SubmittedEvent, PendingFinanceEvent]
     else [SubmittedEvent])
    + if hasBudget then [BudgetCommittedEvent] else []
  }

  /** `compliant` stands for the checks outside the transaction (policies, title, incurred date). */
  function SubmitTx(c: Config, s: State, auth: AuthUser, id: Id, submitAt: int, compliant: bool): (r: Result<Effect>)
    ensures r.Ok? ==> r.value.id == id && id in s.expenses
  {
    if id !in s.expenses then Err(NotFound)
    else
      var e := s.expenses[id];
      if e.userId != auth.id then Err(Forbidden)
      else if e.status != Draft || !compliant || e.amount <= 0 then Err(BadRequest)
      else
        var department := ResolveDepartment(e.userId, e.departmentId, MembersOf(s.users));
        if department.None? then Err(BadRequest)
        else
          var manager := ActiveManagerOf(s, department.value);
          var key := (department.value, ResolveBudgetYear(submitAt, c.zone));
          if NeedsDepartmentManager(s.levels) && !SkipsDepartmentManager(e.userId, manager) && manager.None? then
            Err(BadRequest)
          else if !ValidYear(key.1) then Err(BadRequest)
          else if !DepartmentExists(s, department.value) then Err(NotFound)
          else if !BudgetAllows(c, s, key, e.amount) then Err(BadRequest)
          else
            var filled := e.(departmentId := department);
            var after := filled.(submittedAt := Some(submitAt),
                                 status := InitialSubmitStatus(RequiredLevels(filled, s.levels, manager)));
            Ok(Effect(id, after, DecisionsOn(s, id), SubmitEvents(after.status, ActiveBudget(s, key).Some?)))
  }

  // ---------- Decisions ----------

  predicate MayAct(s: State, auth: AuthUser, e: Expense, stage: Level, now: int) {
    || CanActOnStage(auth, e, stage, s.users)
    || ActsForSomeone(auth, e, stage, s.delegations, s.users, s.departments, now)
  }

  /** The guards that approving and rejecting share; the stage to decide on when they all pass.
      An expense without any required level is healed and then rolled back by its own error. */
  function StageToDecide(s: State, auth: AuthUser, id: Id, now: int): (r: Result<Level>)
    ensures r.Ok? ==> id in s.expenses
  {
    if id !in s.expenses then Err(NotFound)
    else
      var e := s.expenses[id];
      if e.userId == auth.id then Err(Forbidden)
      else if !CanDecideOnExpense(auth, e, s.users) then Err(Forbidden)
      else
        var required := Required(s, e);
        var stage := ActiveStage(e, required, DecisionsOn(s, id));
        if stage.None? then Err(Conflict)
        else if !ReadyForStage(stage.value, e, required, DecisionsOn(s, id)) then Err(Conflict)
        else if !MayAct(s, auth, e, stage.value, now) then Err(Forbidden)
        else Ok(stage.value)
  }

  function OverBudgetObjection(c: Config, s: State, e: Expense, stage: Level, hasComment: bool,
                               acknowledged: bool, now: int): Option<Error>
  {
    if e.departmentId.None? then None
    else
      var key := (e.departmentId.value,
                  ResolveBudgetYear(if e.submittedAt.Some? then e.submittedAt.value else now, c.zone));
      var row := ActiveBudget(s, key);
      if !ValidYear(key.1) then Some(BadRequest)
      else if !DepartmentExists(s, key.0) then Some(NotFound)
      else if row.None? || row.value.committed <= row.value.amountLimit then None
      else if !hasComment then Some(BadRequest)
      else if stage.approverType == FinanceManager && !acknowledged then Some(BadRequest)
      else None
  }

  function ApproveTx(c: Config, s: State, auth: AuthUser, id: Id, hasComment: bool, acknowledged: bool,
                     now: int): (r: Result<Effect>)
    ensures r.Ok? ==> r.value.id == id && id in s.expenses
  {
    match StageToDecide(s, auth, id, now)
    case Err(error) => Err(error)
    case Ok(stage) =>
      var e := s.expenses[id];
      var objection := OverBudgetObjection(c, s, e, stage, hasComment, acknowledged, now);
      if objection.Some? then Err(objection.value)
      else
        var status := StatusAfterLevelApproval(stage, Required(s, e));
        Ok(Effect(id, e.(status := status),
                  DecisionsOn(s, id) + [Decision(stage.id, auth.id, VerdictApproved)],
                  if status == UnderReview then [PendingFinanceEvent] else [ApprovedEvent]))
  }

  function RejectTx(s: State, auth: AuthUser, id: Id, hasComment: bool, now: int): (r: Result<Effect>)
    ensures r.Ok? ==> r.value.id == id && id in s.expenses
  {
    if !hasComment then Err(BadRequest)
    else
      match StageToDecide(s, auth, id, now)
      case Err(error) => Err(error)
      case Ok(stage) =>
        Ok(Effect(id, s.expenses[id].(status := Rejected),
                  DecisionsOn(s, id) + [Decision(stage.id, auth.id, VerdictRejected)],
                  [CommentAddedEvent, RejectedEvent]))
  }

  function ReimburseTx(s: State, auth: AuthUser, id: Id): (r: Result<Effect>)
    ensures r.Ok? ==> r.value.id == id && id in s.expenses
  {
    if ReimburseExpenses !in auth.grants then Err(Forbidden)
    else if id !in s.expenses then Err(NotFound)
    else if s.expenses[id].status != Approved then Err(BadRequest)
    else Ok(Effect(id, s.expenses[id].(status := Reimbursed), DecisionsOn(s, id), [ReimbursedEvent]))
  }

  // ---------- Budgets ----------

  function CreateBudgetTx(s: State, key: Key, limit: int, currentYear: int): Result<State> {
    if !ValidYear(key.1) || key.1 < currentYear || limit <= 0 then Err(BadRequest)
    else if !DepartmentExists(s, key.0) || !s.departments[key.0].isActive then Err(NotFound)
    else if key in s.budgets then Err(Conflict)
    else Ok(s.(budgets := s.budgets[key := BudgetRow(limit, true, 0, 0)]))
  }

  function UpdateBudgetTx(s: State, key: Key, limit: Option<int>, active: Option<bool>): Result<State> {
    if key !in s.budgets then Err(NotFound)
    else if limit.Some? && limit.value <= 0 then Err(BadRequest)
    else
      var row := s.budgets[key];
      Ok(s.(budgets := s.budgets[key :=
              row.(amountLimit := if limit.Some? then limit.value else row.amountLimit,
                   isActive := if active.Some? then active.value else row.isActive)]))
  }

  /** One recalculation; `whole` selects the committed column. */
  function RecalculateTx(c: Config, s: State, key: Key, whole: bool): Result<State> {
    if !ValidYear(key.1) then Err(BadRequest)
    else Ok(s.(budgets := Recalculated(s.budgets, key, s.expenses, c.zone, whole)))
  }

  // ---------- People ----------

  /** Years of the committed expenses of a user that carry no department of their own. */
  function UnattachedYears(c: Config, s: State, userId: Id): set<int> {
    set id | id in s.expenses
             && s.expenses[id].userId == userId
             && s.expenses[id].departmentId.None?
             && s.expenses[id].submittedAt.Some?
             && CountsTowardCommitted(s.expenses[id].status)
           :: ResolveBudgetYear(s.expenses[id].submittedAt.value, c.zone)
  }

  /** A user changes department: committed amounts are recomputed for both departments in the
      years of the user's unattached expenses, and the user stops managing the old department. */
  function MoveUserTx(c: Config, s: State, userId: Id, next: Option<Id>): Result<State> {
    if userId !in s.users then Err(NotFound)
    else
      var previous := s.users[userId].departmentId;
      var years := if previous == next then {} else UnattachedYears(c, s, userId);
      if exists year :: year in years && !ValidYear(year) then Err(BadRequest)
      else
        var budgets := RecalculatedOver(s.budgets, s.expenses, AsSet(Listed(previous) + Listed(next)), years, c.zone);
        var departments :=
          if previous.Some? && previous != next && DepartmentExists(s, previous.value)
             && s.departments[previous.value].managerId == Some(userId)
          then s.departments[previous.value := s.departments[previous.value].(managerId := None)]
          else s.departments;
        Ok(s.(users := s.users[userId := s.users[userId].(departmentId := next)],
              budgets := budgets, departments := departments))
  }

  // ---------- Runs ----------

  datatype Action =
    | Create(userId: Id, amount: int, formValid: bool)
    | Update(auth: AuthUser, id: Id, newAmount: Option<int>, formValid: bool)
    | Remove(auth: AuthUser, id: Id)
    | Submit(auth: AuthUser, id: Id, submitAt: int, compliant: bool)
    | Approve(auth: AuthUser, id: Id, hasComment: bool, acknowledged: bool, now: int)
    | Reject(auth: AuthUser, id: Id, hasComment: bool, now: int)
    | Reopen(auth: AuthUser, id: Id, keepsSubmittedAt: bool)
    | Reimburse(auth: AuthUser, id: Id)
    | CreateBudget(key: Key, limit: int, currentYear: int)
    | UpdateBudget(key: Key, newLimit: Option<int>, active: Option<bool>)
    | Recalculate(key: Key, whole: bool)
    | MoveUser(userId: Id, next: Option<Id>)
    | EditLevels(levels: seq<Level>)
    | PutDepartment(departmentId: Id, department: Department)
    | PutUser(userId: Id, user: User)
    | EditDelegations(delegations: seq<Delegation>)

  predicate SavesExpense(a: Action) {
    a.Update? || a.Submit? || a.Approve? || a.Reject? || a.Reopen? || a.Reimburse?
  }

  function Save(c: Config, s: State, a: Action): (r: Result<Effect>)
    requires SavesExpense(a)
    ensures r.Ok? ==> r.value.id in s.expenses
  {
    match a
    case Update(auth, id, newAmount, formValid) => UpdateTx(s, auth, id, newAmount, formValid)
    case Submit(auth, id, submitAt, compliant) => SubmitTx(c, s, auth, id, submitAt, compliant)
    case Approve(auth, id, hasComment, acknowledged, now) => ApproveTx(c, s, auth, id, hasComment, acknowledged, now)
    case Reject(auth, id, hasComment, now) => RejectTx(s, auth, id, hasComment, now)
    case Reopen(auth, id, keepsSubmittedAt) => ReopenTx(s, auth, id, keepsSubmittedAt)
    case Reimburse(auth, id) => ReimburseTx(s, auth, id)
  }

  function Perform(c: Config, s: State, a: Action): Result<State> {
    if SavesExpense(a) then
      match Save(c, s, a)
      case Ok(f) => Ok(Commit(c, s, f))
      case Err(error) => Err(error)
    else PerformOther(c, s, a)
  }

  function PerformOther(c: Config, s: State, a: Action): Result<State>
    requires !SavesExpense(a)
  {
    match a
    case Create(userId, amount, formValid) => CreateTx(s, userId, amount, formValid)
    case Remove(auth, id) => RemoveTx(s, auth, id)
    case CreateBudget(key, limit, currentYear) => CreateBudgetTx(s, key, limit, currentYear)
    case UpdateBudget(key, newLimit, active) => UpdateBudgetTx(s, key, newLimit, active)
    case Recalculate(key, whole) => RecalculateTx(c, s, key, whole)
    case MoveUser(userId, next) => MoveUserTx(c, s, userId, next)
    case EditLevels(levels) => if DistinctIds(levels) then Ok(s.(levels := levels)) else Err(Conflict)
    case PutDepartment(d, department) => Ok(s.(departments := s.departments[d := department]))
    case PutUser(u, user) => Ok(s.(users := s.users[u := user]))
    case EditDelegations(delegations) => Ok(s.(delegations := delegations))
  }

  /** An aborted transaction leaves the state as it was. */
  function Step(c: Config, s: State, a: Action): State {
    match Perform(c, s, a)
    case Ok(next) => next
    case Err(_) => s
  }

  function Run(c: Config, s: State, actions: seq<Action>): State {
    if actions == [] then s
    else Step(c, Run(c, s, actions[..|actions| - 1]), actions[|actions| - 1])
  }

  /** An empty installation. */
  predicate IsInitial(s: State) {
    s.expenses == map[] && s.decisions == map[] && s.levels == []
    && s.budgets == map[] && s.events == []
  }
}
