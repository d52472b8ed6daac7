/** What every run of the expense lifecycle keeps. */
module ExpenseInvariants {
  import opened Domain
  import opened BudgetPeriod
  import opened BudgetLedger
  import opened ApprovalRouting
  import opened ApprovalAccess
  import opened ExpenseLifecycle

  // ---------- The event log ----------

  /** The status graph: where an event may arrive, and what it leads to. */
  function NextStatus(status: Status, kind: EventKind): Option<Status> {
    match kind
    case SubmittedEvent => if status == Draft then Some(Submitted) else None
    case PendingFinanceEvent => if IsPending(status) then Some(UnderReview) else None
    case ApprovedEvent => if status == Draft || IsPending(status) then Some(Approved) else None
    case RejectedEvent => if IsPending(status) then Some(Rejected) else None
    case ReopenedEvent => if status == Rejected then Some(Draft) else None
    case ReimbursedEvent => if status == Approved then Some(Reimbursed) else None
    case CommentAddedEvent => Some(status)
    case BudgetCommittedEvent => Some(status)
  }

  /** The status of an expense as its events tell it, or None if they leave the graph. */
  function Replay(events: seq<Event>, id: Id): Option<Status> {
    if events == [] then Some(Draft)
    else
      var last := events[|events| - 1];
      var before := Replay(events[..|events| - 1], id);
      if last.expenseId != id then before
      else if before.None? then None
      else NextStatus(before.value, last.kind)
  }

  function ReplayKinds(status: Status, kinds: seq<EventKind>): Option<Status> {
    if kinds == [] then Some(status)
    else
      var before := ReplayKinds(status, kinds[..|kinds| - 1]);
      if before.None? then None else NextStatus(before.value, kinds[|kinds| - 1])
  }

  lemma ReplaySnoc(events: seq<Event>, last: Event, id: Id)
    ensures Replay(events + [last], id) ==
            var before := Replay(events, id);
            if last.expenseId != id then before
            else if before.None? then None
            else NextStatus(before.value, last.kind)
  {
    assert (events + [last])[..|events + [last]| - 1] == events;
  }

  lemma EventsForSnoc(id: Id, kinds: seq<EventKind>)
    requires kinds != []
    ensures EventsFor(id, kinds) == EventsFor(id, kinds[..|kinds| - 1]) + [Event(id, kinds[|kinds| - 1])]
  {
  }

  lemma {:induction false} ReplayAppend(events: seq<Event>, id: Id, kinds: seq<EventKind>, other: Id)
    requires Replay(events, id).Some?
    ensures Replay(events + EventsFor(id, kinds), other) ==
            if other == id then ReplayKinds(Replay(events, id).value, kinds) else Replay(events, other)
    decreases |kinds|
  {
    if kinds == [] {
      assert events + EventsFor(id, kinds) == events;
    } else {
      var front, last := kinds[..|kinds| - 1], Event(id, kinds[|kinds| - 1]);
      ReplayAppend(events, id, front, other);
      EventsForSnoc(id, kinds);
      assert events + EventsFor(id, kinds) == (events + EventsFor(id, front)) + [last];
      ReplaySnoc(events + EventsFor(id, front), last, other);
    }
  }

  // ---------- The invariant ----------

  predicate ExpenseOk(e: Expense, ds: seq<Decision>) {
    && 0 < e.amount
    && Anchored(e)
    && (e.status == Draft ==> ds == [])
    && OnePerLevel(ds)
    && (forall d :: d in ds ==> d.approverId != e.userId)
    && (IsPending(e.status) ==> AllApprove(ds))
  }

  predicate AllApprove(ds: seq<Decision>) {
    forall d :: d in ds ==> d.verdict == VerdictApproved
  }

  predicate RowOk(row: BudgetRow) {
    0 < row.amountLimit && 0 <= row.committed && 0 <= row.reimbursed
  }

  function StatusOf(s: State, id: Id): Status {
    if id in s.expenses then s.expenses[id].status else Draft
  }

  ghost predicate Consistent(s: State) {
    && DistinctIds(s.levels)
    && (forall id :: id in s.expenses ==> id < s.nextExpenseId && ExpenseOk(s.expenses[id], DecisionsOn(s, id)))
    && (forall id :: id in s.decisions ==> id in s.expenses)
    && (forall k :: k in s.budgets ==> RowOk(s.budgets[k]))
    && (forall id: Id :: Replay(s.events, id) == Some(StatusOf(s, id)))
  }

  /** What every transaction that saves an expense guarantees about what it saves. */
  ghost predicate Sound(c: Config, s: State, f: Effect) {
    && f.id in s.expenses
    && ExpenseOk(f.after, f.decisions)
    && ReplayKinds(s.expenses[f.id].status, f.kinds) == Some(f.after.status)
    && LedgerTransition(s.expenses[f.id], f.after)
    && (CountsTowardCommitted(s.expenses[f.id].status) && CountsTowardCommitted(f.after.status) ==>
          f.after == s.expenses[f.id].(status := f.after.status))
    && forall key: Key :: SpendsWithin(c, s, f, key)
  }

  /** What the ledger adds to a row has passed the budget check. */
  predicate SpendsWithin(c: Config, s: State, f: Effect, key: Key)
    requires f.id in s.expenses
  {
    var growth := Contribution(Some(ToSnapshot(f.after)), key, MembersOf(s.users), c.zone)
                  - Contribution(Some(ToSnapshot(s.expenses[f.id])), key, MembersOf(s.users), c.zone);
    growth <= 0 || f.after.status == Reimbursed || BudgetAllows(c, s, key, growth)
  }

  lemma ReadBack(table: map<Id, seq<Decision>>, id: Id, ds: seq<Decision>, other: Id)
    ensures var after := PutDecisions(table, id, ds);
            && RowsFor(after, other) == (if other == id then ds else RowsFor(table, other))
            && (other in after ==> other == id || other in table)
  {
  }

  lemma CommitKeepsLog(c: Config, s: State, f: Effect, other: Id)
    requires Consistent(s) && Sound(c, s, f)
    ensures Replay(Commit(c, s, f).events, other) == Some(StatusOf(Commit(c, s, f), other))
  {
    ReplayAppend(s.events, f.id, f.kinds, other);
  }

  lemma CommitKeepsExpenses(c: Config, s: State, f: Effect, other: Id)
    requires Consistent(s) && Sound(c, s, f)
    ensures var next := Commit(c, s, f);
            && (other in next.expenses ==>
                  other < next.nextExpenseId && ExpenseOk(next.expenses[other], DecisionsOn(next, other)))
            && (other in next.decisions ==> other in next.expenses)
  {
    ReadBack(s.decisions, f.id, f.decisions, other);
  }

  lemma CommitKeepsRows(c: Config, s: State, f: Effect, k: Key)
    requires f.id in s.expenses && k in s.budgets && RowOk(s.budgets[k])
    ensures k in Commit(c, s, f).budgets && RowOk(Commit(c, s, f).budgets[k])
  {
  }

  lemma CommitKeepsConsistent(c: Config, s: State, f: Effect)
    requires Consistent(s) && Sound(c, s, f)
    ensures Consistent(Commit(c, s, f))
  {
    var next := Commit(c, s, f);
    forall other: Id
      ensures Replay(next.events, other) == Some(StatusOf(next, other))
    {
      CommitKeepsLog(c, s, f, other);
    }
    forall other: Id
      ensures other in next.expenses ==>
                other < next.nextExpenseId && ExpenseOk(next.expenses[other], DecisionsOn(next, other))
      ensures other in next.decisions ==> other in next.expenses
    {
      CommitKeepsExpenses(c, s, f, other);
    }
    forall k | k in next.budgets
      ensures RowOk(next.budgets[k])
    {
      CommitKeepsRows(c, s, f, k);
    }
  }

  lemma SubmitEventsReplay(status: Status, hasBudget: bool)
    requires status == Approved || status == UnderReview || status == Submitted
    ensures ReplayKinds(Draft, SubmitEvents(status, hasBudget)) == Some(status)
  {
    var kinds := SubmitEvents(status, hasBudget);
    var base := SubmitEvents(status, false);
    if status == UnderReview {
      assert base[..1] == [SubmittedEvent];
      assert [SubmittedEvent][..0] == [];
    } else {
      assert base[..0] == [];
    }
    assert ReplayKinds(Draft, base) == Some(status);
    if hasBudget {
      assert kinds[..|kinds| - 1] == base;
    }
  }

  lemma OneEventReplay(status: Status, kind: EventKind)
    ensures ReplayKinds(status, [kind]) == NextStatus(status, kind)
  {
    assert [kind][..0] == [];
  }

  /** The stage decided on has no decision yet, so recording one keeps one per level. */
  lemma DecisionIsNew(s: State, auth: AuthUser, id: Id, now: int, verdict: Verdict)
    requires Consistent(s) && StageToDecide(s, auth, id, now).Ok?
    ensures var stage := StageToDecide(s, auth, id, now).value;
            var e := s.expenses[id];
            var after := DecisionsOn(s, id) + [Decision(stage.id, auth.id, verdict)];
            && IsPending(e.status)
            && (forall status :: status != Draft && (IsPending(status) ==> verdict == VerdictApproved) ==>
                  ExpenseOk(e.(status := status), after))
  {
    var e := s.expenses[id];
    var required := Required(s, e);
    var stage := StageToDecide(s, auth, id, now).value;
    var index :| IsFirstOpen(required, DecisionsOn(s, id), index) && stage == required[index];
    DecisionAtFinds(DecisionsOn(s, id), stage.id);
  }

  lemma UpdateIsSound(c: Config, s: State, auth: AuthUser, id: Id, amount: Option<int>, formValid: bool)
    requires Consistent(s) && UpdateTx(s, auth, id, amount, formValid).Ok?
    ensures Sound(c, s, UpdateTx(s, auth, id, amount, formValid).value)
  {
    assert ExpenseOk(s.expenses[id], DecisionsOn(s, id));
  }

  lemma SubmitIsSound(c: Config, s: State, auth: AuthUser, id: Id, submitAt: int, compliant: bool)
    requires Consistent(s) && SubmitTx(c, s, auth, id, submitAt, compliant).Ok?
    ensures Sound(c, s, SubmitTx(c, s, auth, id, submitAt, compliant).value)
  {
    assert ExpenseOk(s.expenses[id], DecisionsOn(s, id));
    var f := SubmitTx(c, s, auth, id, submitAt, compliant).value;
    var booked := (f.after.departmentId.value, ResolveBudgetYear(submitAt, c.zone));
    SubmitEventsReplay(f.after.status, ActiveBudget(s, booked).Some?);
    forall key: Key
      ensures SpendsWithin(c, s, f, key)
    {
      assert key != booked ==> Contribution(Some(ToSnapshot(f.after)), key, MembersOf(s.users), c.zone) == 0;
    }
  }

  /** The effect appends one decision, by the caller, at a required level that had none, and
      changes nothing but the status of the expense. */
  ghost predicate AddsDecision(s: State, auth: AuthUser, id: Id, f: Effect, verdict: Verdict) {
    && id in s.expenses && f.id == id
    && f.after == s.expenses[id].(status := f.after.status)
    && exists level :: level in Required(s, s.expenses[id])
         && f.decisions == DecisionsOn(s, id) + [Decision(level.id, auth.id, verdict)]
         && (forall d :: d in DecisionsOn(s, id) ==> d.levelId != level.id)
  }

  lemma DecisionIsAdded(s: State, auth: AuthUser, id: Id, now: int, f: Effect, verdict: Verdict)
    requires StageToDecide(s, auth, id, now).Ok? && f.id == id && f.after == s.expenses[id].(status := f.after.status)
    requires f.decisions == DecisionsOn(s, id) + [Decision(StageToDecide(s, auth, id, now).value.id, auth.id, verdict)]
    ensures AddsDecision(s, auth, id, f, verdict)
  {
    var required := Required(s, s.expenses[id]);
    var stage := StageToDecide(s, auth, id, now).value;
    var index :| IsFirstOpen(required, DecisionsOn(s, id), index) && stage == required[index];
    DecisionAtFinds(DecisionsOn(s, id), stage.id);
    assert stage in required;
  }

  lemma ApprovalAddsDecision(c: Config, s: State, auth: AuthUser, id: Id, hasComment: bool, acknowledged: bool,
                             now: int)
    requires ApproveTx(c, s, auth, id, hasComment, acknowledged, now).Ok?
    ensures var f := ApproveTx(c, s, auth, id, hasComment, acknowledged, now).value;
            AddsDecision(s, auth, id, f, VerdictApproved)
            && (f.after.status == UnderReview ==> f.kinds == [PendingFinanceEvent])
            && (f.after.status != UnderReview ==> f.after.status == Approved && f.kinds == [ApprovedEvent])
  {
    DecisionIsAdded(s, auth, id, now, ApproveTx(c, s, auth, id, hasComment, acknowledged, now).value, VerdictApproved);
  }

  lemma RejectionAddsDecision(s: State, auth: AuthUser, id: Id, hasComment: bool, now: int)
    requires RejectTx(s, auth, id, hasComment, now).Ok?
    ensures var f := RejectTx(s, auth, id, hasComment, now).value;
            AddsDecision(s, auth, id, f, VerdictRejected) && f.after.status == Rejected
            && f.kinds == [CommentAddedEvent, RejectedEvent]
  {
    DecisionIsAdded(s, auth, id, now, RejectTx(s, auth, id, hasComment, now).value, VerdictRejected);
  }

  lemma ApprovalLog(c: Config, s: State, auth: AuthUser, id: Id, hasComment: bool, acknowledged: bool, now: int)
    requires ApproveTx(c, s, auth, id, hasComment, acknowledged, now).Ok?
    ensures var f := ApproveTx(c, s, auth, id, hasComment, acknowledged, now).value;
            && (f.after.status == Approved || f.after.status == UnderReview)
            && f.after == s.expenses[id].(status := f.after.status)
            && ReplayKinds(s.expenses[id].status, f.kinds) == Some(f.after.status)
  {
    var f := ApproveTx(c, s, auth, id, hasComment, acknowledged, now).value;
    OneEventReplay(s.expenses[id].status, f.kinds[0]);
  }

  lemma ApproveIsSound(c: Config, s: State, auth: AuthUser, id: Id, hasComment: bool, acknowledged: bool, now: int)
    requires Consistent(s) && ApproveTx(c, s, auth, id, hasComment, acknowledged, now).Ok?
    ensures Sound(c, s, ApproveTx(c, s, auth, id, hasComment, acknowledged, now).value)
  {
    DecisionIsNew(s, auth, id, now, VerdictApproved);
    ApprovalLog(c, s, auth, id, hasComment, acknowledged, now);
  }

  lemma RejectIsSound(c: Config, s: State, auth: AuthUser, id: Id, hasComment: bool, now: int)
    requires Consistent(s) && RejectTx(s, auth, id, hasComment, now).Ok?
    ensures Sound(c, s, RejectTx(s, auth, id, hasComment, now).value)
  {
    DecisionIsNew(s, auth, id, now, VerdictRejected);
    OneEventReplay(s.expenses[id].status, CommentAddedEvent);
    assert [CommentAddedEvent, RejectedEvent][..1] == [CommentAddedEvent];
  }

  lemma ReopenIsSound(c: Config, s: State, auth: AuthUser, id: Id, keepsSubmittedAt: bool)
    requires Consistent(s) && ReopenTx(s, auth, id, keepsSubmittedAt).Ok?
    ensures var f := ReopenTx(s, auth, id, keepsSubmittedAt).value;
            && Sound(c, s, f) && f.after.status == Draft && f.decisions == []
            && Commit(c, s, f).budgets == s.budgets
  {
    assert ExpenseOk(s.expenses[id], DecisionsOn(s, id));
    OneEventReplay(Rejected, ReopenedEvent);
    var after := ReopenTx(s, auth, id, keepsSubmittedAt).value.after;
    UncountedTransitionLeavesRows(s.budgets, ToSnapshot(s.expenses[id]), ToSnapshot(after), MembersOf(s.users), c.zone);
  }

  lemma ReimburseIsSound(c: Config, s: State, auth: AuthUser, id: Id)
    requires Consistent(s) && ReimburseTx(s, auth, id).Ok?
    ensures Sound(c, s, ReimburseTx(s, auth, id).value)
  {
    assert ExpenseOk(s.expenses[id], DecisionsOn(s, id));
    OneEventReplay(Approved, ReimbursedEvent);
  }

  lemma SaveIsSound(c: Config, s: State, a: Action)
    requires Consistent(s) && SavesExpense(a) && Save(c, s, a).Ok?
    ensures Sound(c, s, Save(c, s, a).value)
  {
    match a
    case Update(auth, id, newAmount, formValid) => UpdateIsSound(c, s, auth, id, newAmount, formValid);
    case Submit(auth, id, submitAt, compliant) => SubmitIsSound(c, s, auth, id, submitAt, compliant);
    case Approve(auth, id, hasComment, acknowledged, now) =>
      ApproveIsSound(c, s, auth, id, hasComment, acknowledged, now);
    case Reject(auth, id, hasComment, now) => RejectIsSound(c, s, auth, id, hasComment, now);
    case Reopen(auth, id, keepsSubmittedAt) => ReopenIsSound(c, s, auth, id, keepsSubmittedAt);
    case Reimburse(auth, id) => ReimburseIsSound(c, s, auth, id);
  }

  lemma OtherStepKeepsRowOk(c: Config, s: State, a: Action, k: Key)
    requires AllAnchored(s.expenses) && !SavesExpense(a) && PerformOther(c, s, a).Ok?
    requires k in s.budgets ==> RowOk(s.budgets[k])
    requires k in PerformOther(c, s, a).value.budgets
    ensures RowOk(PerformOther(c, s, a).value.budgets[k])
  {
    SumsAreNonNegative(s.expenses, k, c.zone);
  }

  lemma OtherStepKeepsConsistent(c: Config, s: State, a: Action)
    requires Consistent(s) && !SavesExpense(a) && !a.Create? && !a.Remove? && PerformOther(c, s, a).Ok?
    ensures Consistent(PerformOther(c, s, a).value)
  {
    var next := PerformOther(c, s, a).value;
    ConsistentIsAnchored(s);
    forall k | k in next.budgets
      ensures RowOk(next.budgets[k])
    {
      OtherStepKeepsRowOk(c, s, a, k);
    }
    SameBooksStayConsistent(s, next);
  }

  lemma StepKeepsConsistent(c: Config, s: State, a: Action)
    requires Consistent(s)
    ensures Consistent(Step(c, s, a))
  {
    if SavesExpense(a) {
      if Save(c, s, a).Ok? {
        SaveIsSound(c, s, a);
        CommitKeepsConsistent(c, s, Save(c, s, a).value);
      }
    } else if PerformOther(c, s, a).Ok? {
      if a.Create? {
        CreateKeepsConsistent(s, a.userId, a.amount, a.formValid);
      } else if a.Remove? {
        RemoveKeepsConsistent(s, a.auth, a.id);
      } else {
        OtherStepKeepsConsistent(c, s, a);
      }
    }
  }

  lemma SameBooksStayConsistent(s: State, next: State)
    requires Consistent(s) && DistinctIds(next.levels)
    requires forall k :: k in next.budgets ==> RowOk(next.budgets[k])
    requires next.expenses == s.expenses && next.decisions == s.decisions
    requires next.events == s.events && next.nextExpenseId == s.nextExpenseId
    ensures Consistent(next)
  {
    assert forall id: Id :: StatusOf(next, id) == StatusOf(s, id) && DecisionsOn(next, id) == DecisionsOn(s, id);
  }

  lemma CreateKeepsConsistent(s: State, userId: Id, amount: int, formValid: bool)
    requires Consistent(s) && CreateTx(s, userId, amount, formValid).Ok?
    ensures Consistent(CreateTx(s, userId, amount, formValid).value)
  {
    var next := CreateTx(s, userId, amount, formValid).value;
    forall id | id in next.expenses
      ensures id < next.nextExpenseId && ExpenseOk(next.expenses[id], DecisionsOn(next, id))
    {
      assert DecisionsOn(next, id) == DecisionsOn(s, id);
    }
    assert forall id: Id :: StatusOf(next, id) == StatusOf(s, id);
  }

  lemma RemoveKeepsConsistent(s: State, auth: AuthUser, id: Id)
    requires Consistent(s) && RemoveTx(s, auth, id).Ok?
    ensures Consistent(RemoveTx(s, auth, id).value)
  {
    var next := RemoveTx(s, auth, id).value;
    assert forall other: Id :: StatusOf(next, other) == StatusOf(s, other);
    assert forall other: Id :: other != id ==> DecisionsOn(next, other) == DecisionsOn(s, other);
  }

  /** In every run: the replay of an expense's events is its status and never leaves the status
      graph, every expense past DRAFT is anchored to a department and an instant, no level holds
      two decisions, and no decision was made by the owner. */
  lemma {:induction false} RunsStayConsistent(c: Config, s: State, actions: seq<Action>)
    requires Consistent(s)
    ensures Consistent(Run(c, s, actions))
    decreases |actions|
  {
    if actions != [] {
      var front := actions[..|actions| - 1];
      RunsStayConsistent(c, s, front);
      StepKeepsConsistent(c, Run(c, s, front), actions[|actions| - 1]);
    }
  }

  lemma InitialIsConsistent(s: State)
    requires IsInitial(s)
    ensures Consistent(s)
  {
  }

  /** The log and the status column agree after any run from an empty installation, for expenses
      that exist, were removed, or were never created. */
  lemma ReplayGivesStatus(c: Config, s: State, actions: seq<Action>, id: Id)
    requires IsInitial(s)
    ensures Replay(Run(c, s, actions).events, id) == Some(StatusOf(Run(c, s, actions), id))
  {
    InitialIsConsistent(s);
    RunsStayConsistent(c, s, actions);
  }

  lemma NoOneDecidesOnTheirOwn(c: Config, s: State, actions: seq<Action>, id: Id, d: Decision)
    requires IsInitial(s)
    requires d in DecisionsOn(Run(c, s, actions), id)
    ensures id in Run(c, s, actions).expenses && d.approverId != Run(c, s, actions).expenses[id].userId
  {
    InitialIsConsistent(s);
    RunsStayConsistent(c, s, actions);
  }

  // ---------- The ledger ----------

  ghost predicate RowAgrees(c: Config, s: State, key: Key) {
    key in s.budgets && Agrees(s.budgets[key], s.expenses, key, c.zone)
  }

  predicate RowIsActive(s: State, key: Key) {
    key in s.budgets && s.budgets[key].isActive
  }

  lemma ConsistentIsAnchored(s: State)
    requires Consistent(s)
    ensures AllAnchored(s.expenses)
  {
    forall i | i in s.expenses
      ensures 0 < s.expenses[i].amount && Anchored(s.expenses[i])
    {
      assert ExpenseOk(s.expenses[i], DecisionsOn(s, i));
    }
  }

  /** Every expense of the state is counted under the row it is booked on. */
  ghost predicate Placed(c: Config, s: State, key: Key) {
    forall id :: id in s.expenses ==> WellPlaced(s.expenses[id], key, c.zone)
  }

  /** The condition under which saving `after` over the expense `id` keeps a row in agreement. Only the
      status changes while an expense counts, so then there is none. */
  predicate KeepsRow(c: Config, s: State, id: Id, after: Expense, key: Key)
    requires id in s.expenses && key in s.budgets
  {
    var before := s.expenses[id];
    if after.status == Reimbursed then WellPlaced(before, key, c.zone)
    else if !CountsTowardCommitted(before.status) then WellPlaced(after, key, c.zone)
    else
      || CountsTowardCommitted(after.status)
      || WellPlaced(before, key, c.zone)
      || (BookedOn(ToSnapshot(before), MembersOf(s.users), c.zone) == Some(key) && s.budgets[key].committed == 0)
  }

  lemma CommitKeepsAgreement(c: Config, s: State, f: Effect, key: Key)
    requires Consistent(s) && Sound(c, s, f)
    requires RowAgrees(c, s, key) && s.budgets[key].isActive
    ensures RowAgrees(c, Commit(c, s, f), key) <==> KeepsRow(c, s, f.id, f.after, key)
  {
    var members := MembersOf(s.users);
    ConsistentIsAnchored(s);
    SyncKeepsAgreement(s.budgets, s.expenses, f.id, f.after, key, members, c.zone);
    assert RowOk(s.budgets[key]);
    if CountsTowardCommitted(s.expenses[f.id].status) && CountsTowardCommitted(f.after.status) {
      StatusChangeKeepsAgreement(s.budgets[key], s.expenses[f.id], f.after.status, key, members, c.zone);
    }
  }

  /** With the expense counted where it is booked, the condition is that it still is. */
  lemma PlacedExpenseKeepsRow(c: Config, s: State, f: Effect, key: Key)
    requires Consistent(s) && Sound(c, s, f) && key in s.budgets && WellPlaced(s.expenses[f.id], key, c.zone)
    ensures KeepsRow(c, s, f.id, f.after, key) <==> WellPlaced(f.after, key, c.zone)
  {
    assert ExpenseOk(f.after, f.decisions);
  }

  lemma PlacedAfterCommit(c: Config, s: State, f: Effect, key: Key)
    requires f.id in s.expenses && Placed(c, s, key)
    ensures Placed(c, Commit(c, s, f), key) <==> WellPlaced(f.after, key, c.zone)
  {
    assert f.id in Commit(c, s, f).expenses;
  }

  lemma CreateKeepsAgreement(c: Config, s: State, userId: Id, amount: int, formValid: bool, key: Key)
    requires Consistent(s) && RowAgrees(c, s, key) && CreateTx(s, userId, amount, formValid).Ok?
    ensures RowAgrees(c, CreateTx(s, userId, amount, formValid).value, key)
  {
    var e := CreateTx(s, userId, amount, formValid).value.expenses[s.nextExpenseId];
    PipelineAfterPut(s.expenses, s.nextExpenseId, e, key, c.zone);
    ReimbursedAfterPut(s.expenses, s.nextExpenseId, e, key, c.zone);
  }

  /** Steps that touch neither expenses nor totals. */
  lemma OtherStepKeepsTotals(c: Config, s: State, a: Action, key: Key)
    requires !SavesExpense(a) && PerformOther(c, s, a).Ok? && key in s.budgets
    requires !a.Create? && !a.Remove? && !a.Recalculate? && !a.MoveUser?
    ensures var next := PerformOther(c, s, a).value;
            && next.expenses == s.expenses && key in next.budgets
            && next.budgets[key].committed == s.budgets[key].committed
            && next.budgets[key].reimbursed == s.budgets[key].reimbursed
  {
  }

  lemma OtherStepKeepsAgreement(c: Config, s: State, a: Action, key: Key)
    requires Consistent(s) && !SavesExpense(a) && PerformOther(c, s, a).Ok? && RowAgrees(c, s, key)
    ensures RowAgrees(c, PerformOther(c, s, a).value, key)
  {
    match a
    case Create(userId, amount, formValid) => CreateKeepsAgreement(c, s, userId, amount, formValid, key);
    case Remove(auth, id) => RemoveKeepsAgreement(c, s, auth, id, key);
    case Recalculate(other, whole) => RecalculateKeepsAgreement(c, s, other, whole, key);
    case MoveUser(userId, next) => MovingUsersLeavesLedger(c, s, userId, next);
    case _ => OtherStepKeepsTotals(c, s, a, key);
  }

  lemma RemoveKeepsAgreement(c: Config, s: State, auth: AuthUser, id: Id, key: Key)
    requires RowAgrees(c, s, key) && RemoveTx(s, auth, id).Ok?
    ensures RowAgrees(c, RemoveTx(s, auth, id).value, key)
  {
    SumsAfterRemove(s.expenses, id, key, c.zone);
  }

  lemma RecalculateKeepsAgreement(c: Config, s: State, other: Key, whole: bool, key: Key)
    requires RowAgrees(c, s, key) && RecalculateTx(c, s, other, whole).Ok?
    ensures RowAgrees(c, RecalculateTx(c, s, other, whole).value, key)
  {
    if other == key { RecalculationAgrees(s.budgets, key, s.expenses, c.zone); }
  }

  /** After a step that saves no expense, each expense is as before or a draft. */
  lemma OtherStepExpense(c: Config, s: State, a: Action, id: Id)
    requires !SavesExpense(a) && PerformOther(c, s, a).Ok? && id in PerformOther(c, s, a).value.expenses
    ensures var e := PerformOther(c, s, a).value.expenses[id];
            (id in s.expenses && e == s.expenses[id]) || e.status == Draft
  {
  }

  lemma OtherStepKeepsPlaced(c: Config, s: State, a: Action, key: Key)
    requires !SavesExpense(a) && PerformOther(c, s, a).Ok? && Placed(c, s, key)
    ensures Placed(c, PerformOther(c, s, a).value, key)
  {
    var next := PerformOther(c, s, a).value;
    forall id | id in next.expenses
      ensures (id in s.expenses && next.expenses[id] == s.expenses[id]) || next.expenses[id].status == Draft
    {
      OtherStepExpense(c, s, a, id);
    }
    PlacedFrom(c, s, next, key);
  }

  lemma PlacedFrom(c: Config, s: State, next: State, key: Key)
    requires Placed(c, s, key)
    requires forall id :: id in next.expenses ==>
               (id in s.expenses && next.expenses[id] == s.expenses[id]) || next.expenses[id].status == Draft
    ensures Placed(c, next, key)
  {
    forall id | id in next.expenses
      ensures WellPlaced(next.expenses[id], key, c.zone)
    {
      assert next.expenses[id].status == Draft || WellPlaced(s.expenses[id], key, c.zone);
    }
  }

  /** The guard of a step for the agreement of a row: a condition on the expense before the step and,
      for a submission, on its instant. */
  predicate Guard(c: Config, s: State, a: Action, key: Key)
    requires key in s.budgets
  {
    SavesExpense(a) && Save(c, s, a).Ok? ==>
      var e := s.expenses[Save(c, s, a).value.id];
      match a
      case Submit(_, _, submitAt, _) =>
        Save(c, s, a).value.after.departmentId == Some(key.0) ==>
          (InBudgetYear(submitAt, key.1, c.zone) <==> ResolveBudgetYear(submitAt, c.zone) == key.1)
      case Reject(_, _, _, _) =>
        || WellPlaced(e, key, c.zone)
        || (BookedOn(ToSnapshot(e), MembersOf(s.users), c.zone) == Some(key) && s.budgets[key].committed == 0)
      case Reimburse(_, _) => WellPlaced(e, key, c.zone)
      case _ => true
  }

  lemma SubmitGuard(c: Config, s: State, a: Action, key: Key)
    requires a.Submit? && Save(c, s, a).Ok? && key in s.budgets
    ensures KeepsRow(c, s, a.id, Save(c, s, a).value.after, key) <==> Guard(c, s, a, key)
  {
  }

  lemma DecisionGuard(c: Config, s: State, a: Action, key: Key)
    requires (a.Approve? || a.Reject?) && Save(c, s, a).Ok? && key in s.budgets
    ensures KeepsRow(c, s, a.id, Save(c, s, a).value.after, key) <==> Guard(c, s, a, key)
  {
    assert IsPending(s.expenses[a.id].status);
  }

  lemma OtherGuard(c: Config, s: State, a: Action, key: Key)
    requires (a.Update? || a.Reopen? || a.Reimburse?) && Save(c, s, a).Ok? && key in s.budgets
    ensures KeepsRow(c, s, a.id, Save(c, s, a).value.after, key) <==> Guard(c, s, a, key)
  {
  }

  lemma GuardIsKeepsRow(c: Config, s: State, a: Action, key: Key)
    requires SavesExpense(a) && Save(c, s, a).Ok? && key in s.budgets
    ensures KeepsRow(c, s, Save(c, s, a).value.id, Save(c, s, a).value.after, key) <==> Guard(c, s, a, key)
  {
    if a.Submit? {
      SubmitGuard(c, s, a, key);
    } else if a.Approve? || a.Reject? {
      DecisionGuard(c, s, a, key);
    } else {
      OtherGuard(c, s, a, key);
    }
  }

  /** The exact condition, in every zone and from every state: a step keeps an active row in agreement
      if and only if it meets its guard. */
  lemma StepKeepsAgreement(c: Config, s: State, a: Action, key: Key)
    requires Consistent(s) && RowAgrees(c, s, key) && s.budgets[key].isActive
    ensures RowAgrees(c, Step(c, s, a), key) <==> Guard(c, s, a, key)
  {
    if SavesExpense(a) {
      if Save(c, s, a).Ok? {
        SaveIsSound(c, s, a);
        CommitKeepsAgreement(c, s, Save(c, s, a).value, key);
        GuardIsKeepsRow(c, s, a, key);
      }
    } else if PerformOther(c, s, a).Ok? {
      OtherStepKeepsAgreement(c, s, a, key);
    }
  }

  lemma SaveGuardKeepsPlaced(c: Config, s: State, a: Action, key: Key)
    requires Consistent(s) && Placed(c, s, key) && key in s.budgets && SavesExpense(a) && Save(c, s, a).Ok?
    ensures Guard(c, s, a, key) <==> Placed(c, Commit(c, s, Save(c, s, a).value), key)
  {
    var f := Save(c, s, a).value;
    SaveIsSound(c, s, a);
    PlacedAfterCommit(c, s, f, key);
    PlacedExpenseKeepsRow(c, s, f, key);
    GuardIsKeepsRow(c, s, a, key);
  }

  lemma OtherGuardKeepsPlaced(c: Config, s: State, a: Action, key: Key)
    requires Placed(c, s, key) && key in s.budgets && !(SavesExpense(a) && Save(c, s, a).Ok?)
    ensures Guard(c, s, a, key) && Placed(c, Step(c, s, a), key)
  {
    if !SavesExpense(a) && PerformOther(c, s, a).Ok? { OtherStepKeepsPlaced(c, s, a, key); }
  }

  /** Where every expense is counted under the row it is booked on, the guard says that this stays so. */
  lemma GuardKeepsPlaced(c: Config, s: State, a: Action, key: Key)
    requires Consistent(s) && Placed(c, s, key) && key in s.budgets
    ensures Guard(c, s, a, key) <==> Placed(c, Step(c, s, a), key)
  {
    if SavesExpense(a) && Save(c, s, a).Ok? {
      SaveGuardKeepsPlaced(c, s, a, key);
    } else {
      OtherGuardKeepsPlaced(c, s, a, key);
    }
  }

  /** For an accepted submission the condition is one on its instant: on the rows of its department,
      the instant lies in the range of the row's year exactly if it resolves to that year. Rows of
      other departments always keep agreement. */
  lemma {:induction false} SubmissionKeepsAgreementExactly(c: Config, s: State, auth: AuthUser, id: Id, submitAt: int,
                                                           compliant: bool, key: Key)
    requires Consistent(s) && RowAgrees(c, s, key) && s.budgets[key].isActive
    requires SubmitTx(c, s, auth, id, submitAt, compliant).Ok?
    ensures var f := SubmitTx(c, s, auth, id, submitAt, compliant).value;
            RowAgrees(c, Commit(c, s, f), key) <==>
              (f.after.departmentId == Some(key.0) ==>
                 (InBudgetYear(submitAt, key.1, c.zone) <==> ResolveBudgetYear(submitAt, c.zone) == key.1))
  {
    SubmitIsSound(c, s, auth, id, submitAt, compliant);
    SubmissionPlaces(c, s, auth, id, submitAt, compliant, key);
    CommitKeepsAgreement(c, s, SubmitTx(c, s, auth, id, submitAt, compliant).value, key);
  }

  lemma SubmissionPlaces(c: Config, s: State, auth: AuthUser, id: Id, submitAt: int, compliant: bool, key: Key)
    requires SubmitTx(c, s, auth, id, submitAt, compliant).Ok? && key in s.budgets
    ensures var f := SubmitTx(c, s, auth, id, submitAt, compliant).value;
            KeepsRow(c, s, f.id, f.after, key) <==>
              (f.after.departmentId == Some(key.0) ==>
                 (InBudgetYear(submitAt, key.1, c.zone) <==> ResolveBudgetYear(submitAt, c.zone) == key.1))
  {
  }

  /** A rejection keeps agreement exactly if the sums count the expense where it is booked, or if the
      row it is booked on already shows zero. */
  lemma RejectionKeepsAgreementExactly(c: Config, s: State, auth: AuthUser, id: Id, hasComment: bool, now: int,
                                       key: Key)
    requires Consistent(s) && RowAgrees(c, s, key) && s.budgets[key].isActive
    requires RejectTx(s, auth, id, hasComment, now).Ok?
    ensures var f, e := RejectTx(s, auth, id, hasComment, now).value, s.expenses[id];
            RowAgrees(c, Commit(c, s, f), key) <==>
              || WellPlaced(e, key, c.zone)
              || (BookedOn(ToSnapshot(e), MembersOf(s.users), c.zone) == Some(key) && s.budgets[key].committed == 0)
  {
    RejectIsSound(c, s, auth, id, hasComment, now);
    RejectionPlaces(c, s, auth, id, hasComment, now, key);
    CommitKeepsAgreement(c, s, RejectTx(s, auth, id, hasComment, now).value, key);
  }

  lemma RejectionPlaces(c: Config, s: State, auth: AuthUser, id: Id, hasComment: bool, now: int, key: Key)
    requires RejectTx(s, auth, id, hasComment, now).Ok? && key in s.budgets
    ensures var f, e := RejectTx(s, auth, id, hasComment, now).value, s.expenses[id];
            f.id == id && (KeepsRow(c, s, id, f.after, key) <==>
              || WellPlaced(e, key, c.zone)
              || (BookedOn(ToSnapshot(e), MembersOf(s.users), c.zone) == Some(key) && s.budgets[key].committed == 0))
  {
  }

  /** The row is active in every state in which the run takes a step. */
  ghost predicate ActiveThroughout(c: Config, s: State, actions: seq<Action>, key: Key)
    decreases |actions|
  {
    actions != [] ==>
      var front := actions[..|actions| - 1];
      ActiveThroughout(c, s, front, key) && RowIsActive(Run(c, s, front), key)
  }

  ghost predicate PlacedThroughout(c: Config, s: State, actions: seq<Action>, key: Key)
    decreases |actions|
  {
    Placed(c, Run(c, s, actions), key) && (actions != [] ==> PlacedThroughout(c, s, actions[..|actions| - 1], key))
  }

  ghost predicate AgreesThroughout(c: Config, s: State, actions: seq<Action>, key: Key)
    decreases |actions|
  {
    RowAgrees(c, Run(c, s, actions), key) && (actions != [] ==> AgreesThroughout(c, s, actions[..|actions| - 1], key))
  }

  /** Every step of the run meets its guard. */
  ghost predicate GuardedThroughout(c: Config, s: State, actions: seq<Action>, key: Key)
    decreases |actions|
  {
    actions != [] ==>
      var front := actions[..|actions| - 1];
      && GuardedThroughout(c, s, front, key)
      && key in Run(c, s, front).budgets && Guard(c, Run(c, s, front), actions[|actions| - 1], key)
  }

  /** The exact condition for runs, in every zone and from every state: an active row agrees with the
      sums in all states if and only if every step meets its guard. */
  lemma {:induction false} RunsAgreeExactlyWhenGuarded(c: Config, s: State, actions: seq<Action>, key: Key)
    requires Consistent(s) && RowAgrees(c, s, key) && ActiveThroughout(c, s, actions, key)
    ensures AgreesThroughout(c, s, actions, key) <==> GuardedThroughout(c, s, actions, key)
    decreases |actions|
  {
    if actions != [] {
      var front := actions[..|actions| - 1];
      RunsAgreeExactlyWhenGuarded(c, s, front, key);
      if AgreesThroughout(c, s, front, key) {
        RunsStayConsistent(c, s, front);
        StepKeepsAgreement(c, Run(c, s, front), actions[|actions| - 1], key);
      }
    }
  }

  /** A run that starts with every expense counted under the row it is booked on keeps agreement if
      and only if this stays so. */
  lemma {:induction false} RunsAgreeExactlyWhenPlaced(c: Config, s: State, actions: seq<Action>, key: Key)
    requires Consistent(s) && Placed(c, s, key)
    requires RowAgrees(c, s, key) && ActiveThroughout(c, s, actions, key)
    ensures AgreesThroughout(c, s, actions, key) <==> PlacedThroughout(c, s, actions, key)
    decreases |actions|
  {
    if actions != [] {
      var front := actions[..|actions| - 1];
      RunsAgreeExactlyWhenPlaced(c, s, front, key);
      if AgreesThroughout(c, s, front, key) {
        RunsStayConsistent(c, s, front);
        StepKeepsAgreement(c, Run(c, s, front), actions[|actions| - 1], key);
        GuardKeepsPlaced(c, Run(c, s, front), actions[|actions| - 1], key);
      }
    }
  }

  lemma {:induction false} ExactRangesPlaceThroughout(c: Config, s: State, actions: seq<Action>, key: Key)
    requires RangesAreExact(c.zone)
    ensures PlacedThroughout(c, s, actions, key)
    decreases |actions|
  {
    ExactRangesPlace(c, Run(c, s, actions), key);
    if actions != [] {
      ExactRangesPlaceThroughout(c, s, actions[..|actions| - 1], key);
    }
  }

  lemma ExactRangesPlace(c: Config, s: State, key: Key)
    requires RangesAreExact(c.zone)
    ensures Placed(c, s, key)
  {
    forall id | id in s.expenses
      ensures WellPlaced(s.expenses[id], key, c.zone)
    {
      ExactRangesPlaceWell(s.expenses[id], key, c.zone);
    }
  }

  /** A row that agrees with the sums keeps agreeing for as long as it stays active: the cache is
      exact in every state of every run. */
  lemma {:induction false} RunsKeepAgreement(c: Config, s: State, actions: seq<Action>, key: Key)
    requires Consistent(s)
    requires RangesAreExact(c.zone) || GuardedThroughout(c, s, actions, key)
    requires RowAgrees(c, s, key) && ActiveThroughout(c, s, actions, key)
    ensures RowAgrees(c, Run(c, s, actions), key)
  {
    if RangesAreExact(c.zone) {
      ExactRangesPlace(c, s, key);
      ExactRangesPlaceThroughout(c, s, actions, key);
      RunsAgreeExactlyWhenPlaced(c, s, actions, key);
    } else {
      RunsAgreeExactlyWhenGuarded(c, s, actions, key);
    }
  }

  /** A budget created for a department-year agrees from the start exactly when no expense is
      counted there yet. */
  lemma CreatedRowAgrees(c: Config, s: State, key: Key, limit: int, currentYear: int)
    requires Consistent(s) && CreateBudgetTx(s, key, limit, currentYear).Ok?
    ensures RowAgrees(c, CreateBudgetTx(s, key, limit, currentYear).value, key) <==>
            forall id :: id in s.expenses ==>
              PipelineSpend(s.expenses[id], key, c.zone) == 0 && ReimbursedSpend(s.expenses[id], key, c.zone) == 0
  {
    ConsistentIsAnchored(s);
    SumsVanish(s.expenses, key, c.zone);
  }

  /** Both sums are zero exactly if no expense is counted. */
  lemma SumsVanish(expenses: map<Id, Expense>, key: Key, zone: FixedZone)
    requires AllAnchored(expenses)
    ensures (SumPipeline(expenses, key, zone) == 0 && SumReimbursed(expenses, key, zone) == 0) <==>
            forall id :: id in expenses ==>
              PipelineSpend(expenses[id], key, zone) == 0 && ReimbursedSpend(expenses[id], key, zone) == 0
  {
    var pipeline, reimbursed := PipelineColumn(expenses, key, zone), ReimbursedColumn(expenses, key, zone);
    TotalNonNegative(pipeline);
    TotalNonNegative(reimbursed);
    if forall id :: id in expenses ==> pipeline[id] == 0 && reimbursed[id] == 0 {
      TotalZero(pipeline);
      TotalZero(reimbursed);
    } else {
      var id :| id in expenses && !(pipeline[id] == 0 && reimbursed[id] == 0);
      assert id in pipeline && id in reimbursed;
    }
  }

  /** The two recalculations bring any row into agreement. */
  lemma RecalculatedRowAgrees(c: Config, s: State, key: Key)
    requires key in s.budgets && ValidYear(key.1)
    ensures RowAgrees(c, Run(c, s, [Recalculate(key, true), Recalculate(key, false)]), key)
  {
    var both := [Recalculate(key, true), Recalculate(key, false)];
    assert both[..1] == [Recalculate(key, true)];
    assert [Recalculate(key, true)][..0] == [];
    var once := Step(c, s, Recalculate(key, true));
    assert Run(c, s, both[..1]) == once;
    RecalculationAgrees(s.budgets, key, s.expenses, c.zone);
    assert Run(c, s, both) == Step(c, once, Recalculate(key, false));
  }

  /** Moving a user between departments never changes a ledger that runs produced. */
  lemma MovingUsersLeavesLedger(c: Config, s: State, userId: Id, next: Option<Id>)
    requires Consistent(s)
    ensures Step(c, s, MoveUser(userId, next)).budgets == s.budgets
  {
    forall id | id in s.expenses && s.expenses[id].userId == userId
      ensures !(s.expenses[id].departmentId.None? && CountsTowardCommitted(s.expenses[id].status))
    {
      assert ExpenseOk(s.expenses[id], DecisionsOn(s, id));
    }
    assert UnattachedYears(c, s, userId) == {};
  }

  // ---------- Inactive rows ----------

  /** The actions on a row itself. */
  predicate Targets(a: Action, key: Key) {
    (a.UpdateBudget? || a.Recalculate?) && a.key == key
  }

  lemma OtherStepLeavesInactiveRow(c: Config, s: State, a: Action, key: Key)
    requires Consistent(s) && RowIsInactive(s, key) && !Targets(a, key)
    requires !SavesExpense(a) && PerformOther(c, s, a).Ok?
    ensures key in PerformOther(c, s, a).value.budgets && PerformOther(c, s, a).value.budgets[key] == s.budgets[key]
  {
    if a.MoveUser? { MovingUsersLeavesLedger(c, s, a.userId, a.next); }
  }

  predicate RowIsInactive(s: State, key: Key) {
    key in s.budgets && !s.budgets[key].isActive
  }

  /** No expense, budget or user that changes moves the amounts of an inactive row. */
  lemma StepLeavesInactiveRow(c: Config, s: State, a: Action, key: Key)
    requires Consistent(s) && RowIsInactive(s, key) && !Targets(a, key)
    ensures key in Step(c, s, a).budgets && Step(c, s, a).budgets[key] == s.budgets[key]
  {
    if SavesExpense(a) {
      if Save(c, s, a).Ok? {
        var f := Save(c, s, a).value;
        OtherRowsStay(s.budgets, Some(ToSnapshot(s.expenses[f.id])), Some(ToSnapshot(f.after)), key,
                      MembersOf(s.users), c.zone);
      }
    } else if PerformOther(c, s, a).Ok? {
      OtherStepLeavesInactiveRow(c, s, a, key);
    }
  }

  /** In every run, an inactive row keeps its amounts until it is updated or recalculated itself. */
  lemma {:induction false} RunsLeaveInactiveRow(c: Config, s: State, actions: seq<Action>, key: Key)
    requires Consistent(s) && RowIsInactive(s, key)
    requires forall a :: a in actions ==> !Targets(a, key)
    ensures key in Run(c, s, actions).budgets && Run(c, s, actions).budgets[key] == s.budgets[key]
    decreases |actions|
  {
    if actions != [] {
      var front := actions[..|actions| - 1];
      RunsLeaveInactiveRow(c, s, front, key);
      RunsStayConsistent(c, s, front);
      StepLeavesInactiveRow(c, Run(c, s, front), actions[|actions| - 1], key);
    }
  }

  // ---------- The spending limit ----------

  ghost predicate WithinLimit(s: State, key: Key) {
    key in s.budgets && s.budgets[key].isActive && s.budgets[key].committed <= s.budgets[key].amountLimit
  }

  /** The row stays active and its limit is not lowered. */
  predicate LimitKept(s: State, next: State, key: Key) {
    && key in s.budgets && key in next.budgets
    && next.budgets[key].isActive
    && s.budgets[key].amountLimit <= next.budgets[key].amountLimit
  }

  lemma CommitStaysWithinLimit(c: Config, s: State, f: Effect, key: Key)
    requires Consistent(s) && Sound(c, s, f) && c.blockOverspend && WithinLimit(s, key)
    ensures WithinLimit(Commit(c, s, f), key)
  {
    SyncedRow(s.budgets, Some(ToSnapshot(s.expenses[f.id])), Some(ToSnapshot(f.after)), key, MembersOf(s.users),
              c.zone);
    assert RowOk(s.budgets[key]) && SpendsWithin(c, s, f, key);
  }

  /** The check and the delta concern the same row, in every zone. Recalculating the row itself is
      harmless if it agrees. */
  lemma StepStaysWithinLimit(c: Config, s: State, a: Action, key: Key)
    requires Consistent(s) && c.blockOverspend
    requires WithinLimit(s, key) && LimitKept(s, Step(c, s, a), key)
    requires a.Recalculate? && a.key == key ==> RowAgrees(c, s, key)
    ensures WithinLimit(Step(c, s, a), key)
  {
    if SavesExpense(a) {
      if Save(c, s, a).Ok? {
        SaveIsSound(c, s, a);
        CommitStaysWithinLimit(c, s, Save(c, s, a).value, key);
      }
    } else if PerformOther(c, s, a).Ok? {
      match a
      case Recalculate(other, whole) =>
        if other == key { RecalculationAgrees(s.budgets, key, s.expenses, c.zone); }
      case MoveUser(userId, next) => MovingUsersLeavesLedger(c, s, userId, next);
      case _ =>
    }
  }

  ghost predicate LimitKeptThroughout(c: Config, s: State, actions: seq<Action>, key: Key)
    decreases |actions|
  {
    actions != [] ==>
      var front := actions[..|actions| - 1];
      LimitKeptThroughout(c, s, front, key) && LimitKept(Run(c, s, front), Run(c, s, actions), key)
  }

  /** Whenever the run recalculates the row, the row agrees. */
  ghost predicate RecalculatedInAgreement(c: Config, s: State, actions: seq<Action>, key: Key)
    decreases |actions|
  {
    actions != [] ==>
      var front, last := actions[..|actions| - 1], actions[|actions| - 1];
      && RecalculatedInAgreement(c, s, front, key)
      && (last.Recalculate? && last.key == key ==> RowAgrees(c, Run(c, s, front), key))
  }

  /** With overspend blocking on, a row that stays active and whose limit is never lowered is never
      overcommitted, in any zone, unless it is recalculated while it disagrees with the sums. */
  lemma {:induction false} RunsStayWithinLimit(c: Config, s: State, actions: seq<Action>, key: Key)
    requires Consistent(s) && c.blockOverspend
    requires WithinLimit(s, key) && LimitKeptThroughout(c, s, actions, key)
    requires RecalculatedInAgreement(c, s, actions, key)
    ensures WithinLimit(Run(c, s, actions), key)
    decreases |actions|
  {
    if actions != [] {
      var front := actions[..|actions| - 1];
      RunsStayWithinLimit(c, s, front, key);
      RunsStayConsistent(c, s, front);
      StepStaysWithinLimit(c, Run(c, s, front), actions[|actions| - 1], key);
    }
  }

  /** With exact ranges a row that starts in agreement may be recalculated at any time. */
  lemma {:induction false} AgreeingRowsStayWithinLimit(c: Config, s: State, actions: seq<Action>, key: Key)
    requires Consistent(s) && RangesAreExact(c.zone) && c.blockOverspend
    requires RowAgrees(c, s, key) && WithinLimit(s, key) && LimitKeptThroughout(c, s, actions, key)
    ensures RecalculatedInAgreement(c, s, actions, key) && ActiveThroughout(c, s, actions, key)
    ensures RowAgrees(c, Run(c, s, actions), key) && WithinLimit(Run(c, s, actions), key)
    decreases |actions|
  {
    if actions != [] {
      AgreeingRowsStayWithinLimit(c, s, actions[..|actions| - 1], key);
    }
    RunsStayWithinLimit(c, s, actions, key);
    RunsKeepAgreement(c, s, actions, key);
  }
}
