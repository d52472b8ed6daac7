/** How far an expense is along its approval chain, in runs that leave the workflow alone. */
module ApprovalProgress {
  import opened Domain
  import opened ApprovalRouting
  import opened ApprovalAccess
  import opened ExpenseLifecycle
  import opened ExpenseInvariants

  /** The decisions were made level by level, from the first one on. */
  predicate FollowsLevels(required: seq<Level>, ds: seq<Decision>) {
    |ds| <= |required| && forall i :: 0 <= i < |ds| ==> ds[i].levelId == required[i].id
  }

  predicate FirstApproved(ds: seq<Decision>, n: int)
    requires n <= |ds|
  {
    forall i :: 0 <= i < n ==> ds[i].verdict == VerdictApproved
  }

  /** The status is determined by the position in the chain. */
  predicate OnTrack(required: seq<Level>, ds: seq<Decision>, status: Status) {
    && FollowsLevels(required, ds)
    && match status
       case Draft => ds == []
       case Submitted => ds == [] && required != [] && required[0].approverType == DepartmentManager
       case UnderReview =>
         && |ds| < |required| && FirstApproved(ds, |ds|)
         && (ds == [] ==> required[0].approverType == FinanceManager)
       case Approved => |ds| == |required| && FirstApproved(ds, |ds|)
       case Reimbursed => |ds| == |required| && FirstApproved(ds, |ds|)
       case Rejected =>
         ds != [] && FirstApproved(ds, |ds| - 1) && ds[|ds| - 1].verdict == VerdictRejected
  }

  predicate ExpenseOnTrack(s: State, id: Id) {
    id in s.expenses ==> OnTrack(Required(s, s.expenses[id]), DecisionsOn(s, id), s.expenses[id].status)
  }

  /** The levels and every department's manager are the same. */
  ghost predicate SameWorkflow(s: State, next: State) {
    next.levels == s.levels && forall d: Option<Id> :: ManagerOf(next, d) == ManagerOf(s, d)
  }

  lemma NextStage(required: seq<Level>, ds: seq<Decision>)
    requires DistinctIds(required) && FollowsLevels(required, ds) && FirstApproved(ds, |ds|)
    ensures FirstOpen(required, ds) == if |ds| < |required| then Some(required[|ds|]) else None
  {
    assert OnePerLevel(ds);
    forall i | 0 <= i < |ds|
      ensures ApprovedAt(ds, required[i].id)
    {
      DecisionAtIndex(ds, i);
    }
    if |ds| < |required| {
      DecisionAtFinds(ds, required[|ds|].id);
      assert IsFirstOpen(required, ds, |ds|);
      var i :| IsFirstOpen(required, ds, i) && FirstOpen(required, ds) == Some(required[i]);
      FirstOpenIsUnique(required, ds, i, |ds|);
    }
  }

  /** Every pending expense on track has an active stage that all guards accept. */
  lemma PendingExpenseCanBeDecided(s: State, id: Id)
    requires Consistent(s) && id in s.expenses && ExpenseOnTrack(s, id) && IsPending(s.expenses[id].status)
    ensures var e := s.expenses[id];
            var ds := DecisionsOn(s, id);
            && |ds| < |Required(s, e)|
            && ActiveStage(e, Required(s, e), ds) == Some(Required(s, e)[|ds|])
            && ReadyForStage(Required(s, e)[|ds|], e, Required(s, e), ds)
  {
    var e := s.expenses[id];
    var required := Required(s, e);
    RequiredLevelsSpec(e, s.levels, ManagerOf(s, e.departmentId));
    NextStage(required, DecisionsOn(s, id));
    ActiveStageIsReady(e, required, DecisionsOn(s, id));
    IndexOfDistinct(required, |DecisionsOn(s, id)|);
  }

  // ---------- Preservation ----------

  /** The required levels depend on amount and owner, and on the manager only through active
      manager levels. */
  lemma {:induction false} ApplicableDependsOn(levels: seq<Level>, e: Expense, f: Expense, m: Option<Id>, n: Option<Id>)
    requires e.amount == f.amount && e.userId == f.userId
    requires m == n || !NeedsDepartmentManager(levels)
    ensures Applicable(levels, e, m) == Applicable(levels, f, n)
  {
    if levels != [] {
      assert NeedsDepartmentManager(levels[1..]) ==> NeedsDepartmentManager(levels);
      ApplicableDependsOn(levels[1..], e, f, m, n);
      assert levels[0] in levels;
    }
  }

  lemma SubmitStartsChain(c: Config, s: State, auth: AuthUser, id: Id, submitAt: int, compliant: bool)
    requires Consistent(s) && SubmitTx(c, s, auth, id, submitAt, compliant).Ok?
    ensures var f := SubmitTx(c, s, auth, id, submitAt, compliant).value;
            OnTrack(Required(s, f.after), f.decisions, f.after.status)
  {
    var f := SubmitTx(c, s, auth, id, submitAt, compliant).value;
    assert ExpenseOk(s.expenses[id], DecisionsOn(s, id));
    var department := f.after.departmentId;
    var filled := s.expenses[id].(departmentId := department);
    ApplicableDependsOn(s.levels, filled, f.after, ActiveManagerOf(s, department.value), ManagerOf(s, department));
  }

  /** One more decision at the next level. */
  lemma NextDecision(required: seq<Level>, ds: seq<Decision>, d: Decision)
    requires FollowsLevels(required, ds) && |ds| < |required| && FirstApproved(ds, |ds|)
    requires d.levelId == required[|ds|].id
    ensures d.verdict == VerdictApproved ==>
              OnTrack(required, ds + [d], if |ds| + 1 == |required| then Approved else UnderReview)
    ensures d.verdict == VerdictRejected ==> OnTrack(required, ds + [d], Rejected)
  {
  }

  lemma DecisionAdvancesChain(s: State, auth: AuthUser, id: Id, now: int)
    requires Consistent(s) && ExpenseOnTrack(s, id) && StageToDecide(s, auth, id, now).Ok?
    ensures var e := s.expenses[id];
            var required := Required(s, e);
            var ds := DecisionsOn(s, id);
            var stage := StageToDecide(s, auth, id, now).value;
            var status := StatusAfterLevelApproval(stage, required);
            && OnTrack(required, ds + [Decision(stage.id, auth.id, VerdictApproved)], status)
            && OnTrack(required, ds + [Decision(stage.id, auth.id, VerdictRejected)], Rejected)
  {
    var e := s.expenses[id];
    var required, ds := Required(s, e), DecisionsOn(s, id);
    PendingExpenseCanBeDecided(s, id);
    RequiredLevelsSpec(e, s.levels, ManagerOf(s, e.departmentId));
    IndexOfDistinct(required, |ds|);
    var stage := StageToDecide(s, auth, id, now).value;
    assert stage == required[|ds|];
    NextDecision(required, ds, Decision(stage.id, auth.id, VerdictApproved));
    NextDecision(required, ds, Decision(stage.id, auth.id, VerdictRejected));
  }

  /** A change of the status alone leaves the required levels. */
  lemma RequiredIgnoresStatus(s: State, e: Expense, status: Status)
    ensures Required(s, e.(status := status)) == Required(s, e)
  {
    var m := ManagerOf(s, e.departmentId);
    ApplicableDependsOn(s.levels, e, e.(status := status), m, m);
  }

  lemma DecidedExpenseStaysOnTrack(c: Config, s: State, a: Action)
    requires Consistent(s) && (a.Approve? || a.Reject?) && Save(c, s, a).Ok? && ExpenseOnTrack(s, a.id)
    ensures var f := Save(c, s, a).value;
            OnTrack(Required(s, f.after), f.decisions, f.after.status)
  {
    var f := Save(c, s, a).value;
    DecisionAdvancesChain(s, a.auth, a.id, a.now);
    RequiredIgnoresStatus(s, s.expenses[a.id], f.after.status);
  }

  lemma SavedExpenseStaysOnTrack(c: Config, s: State, a: Action)
    requires Consistent(s) && SavesExpense(a) && Save(c, s, a).Ok?
    requires ExpenseOnTrack(s, Save(c, s, a).value.id)
    ensures var f := Save(c, s, a).value;
            OnTrack(Required(s, f.after), f.decisions, f.after.status)
  {
    var f := Save(c, s, a).value;
    assert ExpenseOk(s.expenses[f.id], DecisionsOn(s, f.id));
    if a.Submit? {
      SubmitStartsChain(c, s, a.auth, a.id, a.submitAt, a.compliant);
    } else if a.Approve? || a.Reject? {
      DecidedExpenseStaysOnTrack(c, s, a);
    } else if a.Reimburse? {
      RequiredIgnoresStatus(s, s.expenses[a.id], Reimbursed);
    }
  }

  lemma SaveKeepsOnTrack(c: Config, s: State, a: Action, id: Id)
    requires Consistent(s) && ExpenseOnTrack(s, id) && SavesExpense(a) && Save(c, s, a).Ok?
    ensures ExpenseOnTrack(Commit(c, s, Save(c, s, a).value), id)
  {
    var f := Save(c, s, a).value;
    if f.id == id { SavedExpenseStaysOnTrack(c, s, a); }
    CommitShowsExpense(c, s, f, id);
  }

  lemma CommitShowsExpense(c: Config, s: State, f: Effect, id: Id)
    requires f.id in s.expenses
    requires if id == f.id then OnTrack(Required(s, f.after), f.decisions, f.after.status) else ExpenseOnTrack(s, id)
    ensures ExpenseOnTrack(Commit(c, s, f), id)
  {
    ReadBack(s.decisions, f.id, f.decisions, id);
    var e := if id == f.id then f.after else if id in s.expenses then s.expenses[id] else f.after;
    assert ManagerOf(Commit(c, s, f), e.departmentId) == ManagerOf(s, e.departmentId);
  }

  /** Steps that save no expense leave every expense that remains as it was. */
  lemma OtherStepKeepsExpense(c: Config, s: State, a: Action, id: Id)
    requires Consistent(s) && !SavesExpense(a) && PerformOther(c, s, a).Ok?
             && id in PerformOther(c, s, a).value.expenses
    ensures var next := PerformOther(c, s, a).value;
            && DecisionsOn(next, id) == DecisionsOn(s, id)
            && (if id in s.expenses then next.expenses[id] == s.expenses[id]
                else next.expenses[id].status == Draft && DecisionsOn(s, id) == [])
  {
    assert id in s.decisions ==> id in s.expenses;
  }

  lemma StepKeepsOnTrack(c: Config, s: State, a: Action, id: Id)
    requires Consistent(s) && ExpenseOnTrack(s, id) && SameWorkflow(s, Step(c, s, a))
    ensures ExpenseOnTrack(Step(c, s, a), id)
  {
    if SavesExpense(a) {
      if Save(c, s, a).Ok? { SaveKeepsOnTrack(c, s, a, id); }
    } else if PerformOther(c, s, a).Ok? && id in PerformOther(c, s, a).value.expenses {
      OtherStepKeepsExpense(c, s, a, id);
    }
  }

  ghost predicate SameWorkflowThroughout(c: Config, s: State, actions: seq<Action>)
    decreases |actions|
  {
    actions != [] ==>
      var front := actions[..|actions| - 1];
      SameWorkflowThroughout(c, s, front) && SameWorkflow(Run(c, s, front), Run(c, s, actions))
  }

  /** While levels and managers stay as they are, every expense that started as a draft, or that
      does not exist yet, stays on track: its decisions are an approved prefix of the required
      levels, its status tells the position, and it is APPROVED after exactly as many approvals as
      there are required levels. */
  lemma {:induction false} RunsStayOnTrack(c: Config, s: State, actions: seq<Action>, id: Id)
    requires Consistent(s) && SameWorkflowThroughout(c, s, actions)
    requires StatusOf(s, id) == Draft || ExpenseOnTrack(s, id)
    ensures ExpenseOnTrack(Run(c, s, actions), id)
    decreases |actions|
  {
    if actions == [] {
      assert id in s.expenses ==> ExpenseOk(s.expenses[id], DecisionsOn(s, id));
    } else {
      var front := actions[..|actions| - 1];
      RunsStayOnTrack(c, s, front, id);
      RunsStayConsistent(c, s, front);
      StepKeepsOnTrack(c, Run(c, s, front), actions[|actions| - 1], id);
    }
  }

  /** Whatever admins edited before, an approval that sets APPROVED leaves every level required
      at that moment approved. */
  lemma ApprovedMeansAllLevelsApproved(c: Config, s: State, auth: AuthUser, id: Id, hasComment: bool,
                                       acknowledged: bool, now: int, level: Level)
    requires Consistent(s) && ApproveTx(c, s, auth, id, hasComment, acknowledged, now).Ok?
    requires ApproveTx(c, s, auth, id, hasComment, acknowledged, now).value.after.status == Approved
    requires level in Required(s, s.expenses[id])
    ensures SomeApproval(ApproveTx(c, s, auth, id, hasComment, acknowledged, now).value.decisions, level.id)
  {
    var e := s.expenses[id];
    RequiredLevelsSpec(e, s.levels, ManagerOf(s, e.departmentId));
    ApprovalOutcome(e, Required(s, e), DecisionsOn(s, id), auth.id);
  }

  /** What a saving step writes is what the table shows. */
  lemma StepShowsDecisions(c: Config, s: State, a: Action)
    requires SavesExpense(a) && Save(c, s, a).Ok?
    ensures DecisionsOn(Step(c, s, a), Save(c, s, a).value.id) == Save(c, s, a).value.decisions
  {
    ReadBack(s.decisions, Save(c, s, a).value.id, Save(c, s, a).value.decisions, Save(c, s, a).value.id);
  }

  lemma ApprovalIsByOthers(c: Config, s: State, auth: AuthUser, id: Id, hasComment: bool, acknowledged: bool, now: int,
                           d: Decision)
    requires Consistent(s) && ApproveTx(c, s, auth, id, hasComment, acknowledged, now).Ok?
    requires d in ApproveTx(c, s, auth, id, hasComment, acknowledged, now).value.decisions
    ensures d.approverId != s.expenses[id].userId
  {
    ApproveIsSound(c, s, auth, id, hasComment, acknowledged, now);
  }

  /** Some decision at the level approves and is not by the owner. */
  predicate ApprovedByOthers(s: State, id: Id, ownerId: Id, level: Level) {
    exists d :: d in DecisionsOn(s, id)
                && d.levelId == level.id && d.verdict == VerdictApproved && d.approverId != ownerId
  }

  lemma CompleteApproval(c: Config, s: State, auth: AuthUser, id: Id, hasComment: bool, acknowledged: bool, now: int,
                         level: Level)
    requires Consistent(s) && ApproveTx(c, s, auth, id, hasComment, acknowledged, now).Ok?
    requires ApproveTx(c, s, auth, id, hasComment, acknowledged, now).value.after.status == Approved
    requires level in Required(s, s.expenses[id])
    ensures ApprovedByOthers(Step(c, s, Approve(auth, id, hasComment, acknowledged, now)), id, s.expenses[id].userId,
                             level)
  {
    ApprovedMeansAllLevelsApproved(c, s, auth, id, hasComment, acknowledged, now, level);
    StepShowsDecisions(c, s, Approve(auth, id, hasComment, acknowledged, now));
    var f := ApproveTx(c, s, auth, id, hasComment, acknowledged, now).value;
    var d :| d in f.decisions && d.levelId == level.id && d.verdict == VerdictApproved;
    ApprovalIsByOthers(c, s, auth, id, hasComment, acknowledged, now, d);
  }

  /** In every run from an empty installation, whatever was edited along the way: an approval that
      sets APPROVED leaves every level required at that moment approved, none of them by the owner. */
  lemma {:induction false} ApprovalsInRunsAreComplete(c: Config, s: State, actions: seq<Action>, auth: AuthUser,
                                                      id: Id, hasComment: bool,
                                   acknowledged: bool, now: int, level: Level)
    requires IsInitial(s)
    requires var tx := ApproveTx(c, Run(c, s, actions), auth, id, hasComment, acknowledged, now);
             tx.Ok? && tx.value.after.status == Approved
    requires level in Required(Run(c, s, actions), Run(c, s, actions).expenses[id])
    ensures var mid := Run(c, s, actions);
            ApprovedByOthers(Step(c, mid, Approve(auth, id, hasComment, acknowledged, now)), id,
                             mid.expenses[id].userId, level)
  {
    InitialIsConsistent(s);
    RunsStayConsistent(c, s, actions);
    CompleteApproval(c, Run(c, s, actions), auth, id, hasComment, acknowledged, now, level);
  }

  // ---------- Expenses without an active stage ----------

  /** When no decision rejects, there is no active stage exactly if every required level is decided. */
  lemma {:induction false} NoStageWhenAllDecided(required: seq<Level>, ds: seq<Decision>)
    requires AllApprove(ds)
    ensures FirstOpen(required, ds).None? <==> forall level :: level in required ==> SomeApproval(ds, level.id)
  {
    forall level: Level
      ensures SomeApproval(ds, level.id) <==> ApprovedAt(ds, level.id)
      ensures ApprovedAt(ds, level.id) <==> DecisionAt(ds, level.id).Some?
    {
      DecisionAtFinds(ds, level.id);
    }
    if FirstOpen(required, ds).Some? {
      var i :| IsFirstOpen(required, ds, i);
      assert required[i] in required && !SomeApproval(ds, required[i].id);
    } else if exists level :: level in required && !SomeApproval(ds, level.id) {
      var i := FirstUndecided(required, ds);
      assert IsFirstOpen(required, ds, i);
    }
  }

  lemma {:induction false} FirstUndecided(required: seq<Level>, ds: seq<Decision>) returns (i: nat)
    requires exists level :: level in required && !SomeApproval(ds, level.id)
    ensures i < |required| && !SomeApproval(ds, required[i].id)
    ensures forall k :: 0 <= k < i ==> SomeApproval(ds, required[k].id)
  {
    i := 0;
    while SomeApproval(ds, required[i].id)
      invariant i < |required| && forall k :: 0 <= k < i ==> SomeApproval(ds, required[k].id)
      decreases |required| - i
    {
      i := i + 1;
    }
  }

  /** The exact condition, in every consistent state and hence in every run: an accepted approval
      leaves a pending expense without a stage to act on if and only if it is not at the last level
      and every later level had been approved before it. */
  lemma ApprovalStrandsExactly(c: Config, s: State, auth: AuthUser, id: Id, hasComment: bool, acknowledged: bool,
                               now: int)
    requires Consistent(s) && ApproveTx(c, s, auth, id, hasComment, acknowledged, now).Ok?
    ensures var f := ApproveTx(c, s, auth, id, hasComment, acknowledged, now).value;
            var required := Required(s, s.expenses[id]);
            var index := IndexOf(required, StageToDecide(s, auth, id, now).value.id);
            (IsPending(f.after.status) && ActiveStage(f.after, required, f.decisions).None?) <==>
              (index < |required| - 1
               && forall i :: index < i < |required| ==> SomeApproval(DecisionsOn(s, id), required[i].id))
  {
    var e := s.expenses[id];
    var required := Required(s, e);
    var f := ApproveTx(c, s, auth, id, hasComment, acknowledged, now).value;
    RequiredLevelsSpec(e, s.levels, ManagerOf(s, e.departmentId));
    ApprovalOutcome(e, required, DecisionsOn(s, id), auth.id);
    ApproveIsSound(c, s, auth, id, hasComment, acknowledged, now);
    if IsPending(f.after.status) { NoStageWhenAllDecided(required, f.decisions); }
  }

  lemma RequiredAfterApproval(c: Config, s: State, auth: AuthUser, id: Id, hasComment: bool, acknowledged: bool,
                              now: int)
    requires ApproveTx(c, s, auth, id, hasComment, acknowledged, now).Ok?
    ensures var next := Step(c, s, Approve(auth, id, hasComment, acknowledged, now));
            id in next.expenses && Required(next, next.expenses[id]) == Required(s, s.expenses[id])
  {
    var f := ApproveTx(c, s, auth, id, hasComment, acknowledged, now).value;
    RequiredIgnoresStatus(s, s.expenses[id], f.after.status);
  }

  lemma SwappedStage(s: State, auth: AuthUser, id: Id, now: int, first: Level, second: Level, a: Id)
    requires StageToDecide(s, auth, id, now).Ok? && first.id != second.id
    requires Required(s, s.expenses[id]) == [second, first]
    requires DecisionsOn(s, id) == [Decision(first.id, a, VerdictApproved)]
    ensures StageToDecide(s, auth, id, now).value == second
  {
    var ds := [Decision(first.id, a, VerdictApproved)];
    assert ds[1..] == [];
    assert IsFirstOpen([second, first], ds, 0);
  }

  /** Two levels swapped between two decisions: the approval at the one that has become the first is
      accepted and strands the expense. */
  lemma SwapStrandsExpense(c: Config, s: State, auth: AuthUser, id: Id, hasComment: bool, acknowledged: bool, now: int,
                           first: Level, second: Level, a: Id)
    requires Consistent(s) && ApproveTx(c, s, auth, id, hasComment, acknowledged, now).Ok?
    requires Required(s, s.expenses[id]) == [second, first]
    requires DecisionsOn(s, id) == [Decision(first.id, a, VerdictApproved)]
    requires first.id != second.id
    ensures var next := Step(c, s, Approve(auth, id, hasComment, acknowledged, now));
            && id in next.expenses && next.expenses[id].status == UnderReview
            && Required(next, next.expenses[id]) == [second, first]
            && ActiveStage(next.expenses[id], [second, first], DecisionsOn(next, id)).None?
  {
    SwapStrandsEffect(c, s, auth, id, hasComment, acknowledged, now, first, second, a);
    RequiredAfterApproval(c, s, auth, id, hasComment, acknowledged, now);
    StepShowsDecisions(c, s, Approve(auth, id, hasComment, acknowledged, now));
  }

  lemma SwapStrandsEffect(c: Config, s: State, auth: AuthUser, id: Id, hasComment: bool, acknowledged: bool, now: int,
                          first: Level, second: Level, a: Id)
    requires Consistent(s) && ApproveTx(c, s, auth, id, hasComment, acknowledged, now).Ok?
    requires Required(s, s.expenses[id]) == [second, first]
    requires DecisionsOn(s, id) == [Decision(first.id, a, VerdictApproved)]
    requires first.id != second.id
    ensures var f := ApproveTx(c, s, auth, id, hasComment, acknowledged, now).value;
            f.after.status == UnderReview && ActiveStage(f.after, [second, first], f.decisions).None?
  {
    SwappedStage(s, auth, id, now, first, second, a);
    assert Decision(first.id, a, VerdictApproved) in DecisionsOn(s, id);
    ApprovalStrandsExactly(c, s, auth, id, hasComment, acknowledged, now);
  }

  /** The manager level of an expense that waits for its manager is gone: the finance level is its
      active stage, and every decision by anybody is refused. */
  lemma DeactivationBlocksDecisions(s: State, id: Id, finance: Level, auth: AuthUser, now: int)
    requires id in s.expenses && s.expenses[id].status == Submitted && finance.approverType == FinanceManager
    requires Required(s, s.expenses[id]) == [finance] && DecisionsOn(s, id) == []
    ensures ActiveStage(s.expenses[id], [finance], []) == Some(finance)
    ensures StageToDecide(s, auth, id, now).Err?
  {
    DeactivatedLevelBlocksDecisions(s.expenses[id], finance);
  }
}
