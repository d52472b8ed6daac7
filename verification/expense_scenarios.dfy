/** Runs from an empty installation that reach what the properties leave open: an expense stranded by
    swapped levels, one that nobody can decide on, and totals that differ from their sums. */
module ExpenseScenarios {
  import opened Domain
  import opened BudgetPeriod
  import opened BudgetLedger
  import opened ApprovalRouting
  import opened ApprovalAccess
  import opened ExpenseLifecycle
  import opened ExpenseInvariants
  import opened ApprovalProgress
  import opened ActionableQueue

  // ---------- One draft ----------

  function Blank(): State {
    State(map[], 1, map[], [], map[], map[], [], map[], [])
  }

  function Owner(): AuthUser {
    AuthUser(1, {}, {})
  }

  function FinanceUser(): AuthUser {
    AuthUser(3, {}, {ApproveGlobally})
  }

  /** Department 1, led by user 2, has the member 1, who owns the expense 1. */
  function Office(): Department {
    Department(Some(2), true, false)
  }

  function OneExpense(status: Status, submittedAt: Option<int>): Expense {
    Expense(1, Some(1), 100, status, submittedAt)
  }

  function WithExpense(e: Expense, levels: seq<Level>, decisions: map<Id, seq<Decision>>, events: seq<Event>): State {
    State(map[1 := e], 2, decisions, levels, map[1 := Office()], map[1 := User(Some(1), {})], [], map[], events)
  }

  function Drafted(levels: seq<Level>): State {
    WithExpense(OneExpense(Draft, None), levels, map[], [])
  }

  lemma RunSnoc(c: Config, s: State, actions: seq<Action>, a: Action)
    ensures Run(c, s, actions + [a]) == Step(c, Run(c, s, actions), a)
  {
    assert (actions + [a])[..|actions + [a]| - 1] == actions;
  }

  lemma BlankIsInitial()
    ensures IsInitial(Blank()) && Consistent(Blank())
  {
    InitialIsConsistent(Blank());
  }

  /** One more action after a run that reached `s`. */
  lemma Then(c: Config, actions: seq<Action>, s: State, a: Action) returns (longer: seq<Action>)
    requires Run(c, Blank(), actions) == s
    ensures longer == actions + [a] && Run(c, Blank(), longer) == Step(c, s, a)
  {
    longer := actions + [a];
    RunSnoc(c, Blank(), actions, a);
  }

  lemma NothingDone(c: Config)
    ensures Run(c, Blank(), []) == Blank()
  {
  }

  function WithOffice(): State {
    Blank().(departments := map[1 := Office()])
  }

  function Staffed(levels: seq<Level>): State {
    WithOffice().(users := map[1 := User(Some(1), {})], levels := levels)
  }

  lemma Opens(c: Config, levels: seq<Level>)
    requires DistinctIds(levels)
    ensures Step(c, Blank(), PutDepartment(1, Office())) == WithOffice()
    ensures Step(c, WithOffice(), PutUser(1, User(Some(1), {}))) == Staffed([])
    ensures Step(c, Staffed([]), EditLevels(levels)) == Staffed(levels)
  {
  }

  lemma DraftIsCreated(c: Config, levels: seq<Level>)
    ensures Step(c, Staffed(levels), Create(1, 100, true)) == Drafted(levels)
  {
  }

  lemma DraftedIsReachable(c: Config, levels: seq<Level>) returns (actions: seq<Action>)
    requires DistinctIds(levels)
    ensures Run(c, Blank(), actions) == Drafted(levels)
  {
    NothingDone(c);
    Opens(c, levels);
    DraftIsCreated(c, levels);
    actions := Then(c, [], Blank(), PutDepartment(1, Office()));
    actions := Then(c, actions, WithOffice(), PutUser(1, User(Some(1), {})));
    actions := Then(c, actions, Staffed([]), EditLevels(levels));
    actions := Then(c, actions, Staffed(levels), Create(1, 100, true));
  }

  /** What a run from an empty installation reaches is consistent. */
  lemma ReachedIsConsistent(c: Config, actions: seq<Action>, s: State)
    requires Run(c, Blank(), actions) == s
    ensures Consistent(s)
  {
    BlankIsInitial();
    RunsStayConsistent(c, Blank(), actions);
  }

  function MidYear(): int {
    UtcMidnight(2024, 7, 1)
  }

  lemma MidYearResolves(zone: FixedZone)
    ensures ResolveBudgetYear(MidYear(), zone) == 2024
  {
    LocalRangesMatchYears(MidYear(), 2024, zone);
    YearLength(2024);
  }

  // ---------- Two levels ----------

  /** The catalogue is sorted by rank whatever order it comes in. */
  lemma RequiredOfTwo(a: Level, b: Level, e: Expense, managerId: Option<Id>)
    requires IsRequired(a, e, managerId) && IsRequired(b, e, managerId)
    ensures RequiredLevels(e, [a, b], managerId) == if a.rank <= b.rank then [a, b] else [b, a]
  {
    assert [a, b][1..] == [b] && [b][1..] == [];
    assert Applicable([b], e, managerId) == [b];
    assert Applicable([a, b], e, managerId) == [a, b];
    assert SortByRank([b]) == [b];
    assert SortByRank([a, b]) == InsertByRank(a, [b]);
    assert InsertByRank(a, []) == [a];
  }

  lemma RequiredOfOne(a: Level, b: Level, e: Expense, managerId: Option<Id>)
    requires !IsRequired(a, e, managerId) && IsRequired(b, e, managerId)
    ensures RequiredLevels(e, [a, b], managerId) == [b]
  {
    assert [a, b][1..] == [b] && [b][1..] == [];
    assert Applicable([b], e, managerId) == [b];
    assert Applicable([a, b], e, managerId) == [b];
    assert SortByRank([b]) == [b];
  }

  function FinanceLevel(id: Id, rank: int): Level {
    Level(id, rank, FinanceManager, 0, None, true)
  }

  function ManagerLevel(isActive: bool): Level {
    Level(1, 1, DepartmentManager, 0, None, isActive)
  }

  /** The draft is submitted; there is no budget. */
  lemma SubmitsDraft(c: Config, levels: seq<Level>, required: seq<Level>, ms: int)
    requires RequiredLevels(OneExpense(Draft, None), levels, Some(2)) == required && required != []
    requires ValidYear(ResolveBudgetYear(ms, c.zone))
    ensures var status := InitialSubmitStatus(required);
            Step(c, Drafted(levels), Submit(Owner(), 1, ms, true)) ==
            WithExpense(OneExpense(status, Some(ms)), levels, map[], EventsFor(1, SubmitEvents(status, false)))
  {
    var s := Drafted(levels);
    var tx := SubmitTx(c, s, Owner(), 1, ms, true);
    assert tx.Ok? && tx.value.after == OneExpense(InitialSubmitStatus(required), Some(ms));
    assert s.expenses[1 := tx.value.after] == map[1 := tx.value.after];
    assert s.events + EventsFor(1, tx.value.kinds) == EventsFor(1, tx.value.kinds);
  }

  // ---------- Swapped levels ----------

  function InReview(levels: seq<Level>, decisions: map<Id, seq<Decision>>, events: seq<Event>): State {
    WithExpense(OneExpense(UnderReview, Some(MidYear())), levels, decisions, events)
  }

  /** The finance user may approve at the active stage `stage`. */
  lemma FinanceApproves(c: Config, levels: seq<Level>, decisions: map<Id, seq<Decision>>, events: seq<Event>,
                        stage: Level, last: Level)
    requires RequiredLevels(OneExpense(UnderReview, Some(MidYear())), levels, Some(2)) == [stage, last]
    requires stage.approverType == FinanceManager && stage.id != last.id
    requires DecisionAt(RowsFor(decisions, 1), stage.id).None?
    ensures var s := InReview(levels, decisions, events);
            ApproveTx(c, s, FinanceUser(), 1, false, false, MidYear()) ==
              Ok(Effect(1, s.expenses[1], RowsFor(decisions, 1) + [Decision(stage.id, 3, VerdictApproved)],
                        [PendingFinanceEvent]))
  {
    var s := InReview(levels, decisions, events);
    var e := s.expenses[1];
    MidYearResolves(c.zone);
    assert Required(s, e) == [stage, last];
    assert IsFirstOpen([stage, last], DecisionsOn(s, 1), 0);
    var required, ds := [stage, last], DecisionsOn(s, 1);
    var i :| IsFirstOpen(required, ds, i) && FirstOpen(required, ds) == Some(required[i]);
    FirstOpenIsUnique(required, ds, i, 0);
    assert ReadyForStage(stage, e, [stage, last], DecisionsOn(s, 1));
    assert StageToDecide(s, FinanceUser(), 1, MidYear()) == Ok(stage);
    assert OverBudgetObjection(c, s, e, stage, false, false, MidYear()) == None;
    assert StatusAfterLevelApproval(stage, [stage, last]) == UnderReview;
  }

  lemma FirstApproval(c: Config)
    ensures var levels := [FinanceLevel(1, 1), FinanceLevel(2, 2)];
            var events := EventsFor(1, SubmitEvents(UnderReview, false));
            Step(c, InReview(levels, map[], events), Approve(FinanceUser(), 1, false, false, MidYear())) ==
            InReview(levels, map[1 := [Decision(1, 3, VerdictApproved)]], events + EventsFor(1, [PendingFinanceEvent]))
  {
    var levels := [FinanceLevel(1, 1), FinanceLevel(2, 2)];
    var events := EventsFor(1, SubmitEvents(UnderReview, false));
    var s := InReview(levels, map[], events);
    RequiredOfTwo(levels[0], levels[1], s.expenses[1], Some(2));
    FinanceApproves(c, levels, map[], events, levels[0], levels[1]);
    var f := ApproveTx(c, s, FinanceUser(), 1, false, false, MidYear()).value;
    assert f.decisions == [Decision(1, 3, VerdictApproved)];
    assert s.expenses[1 := f.after] == s.expenses;
  }

  lemma SubmissionIsReached(c: Config) returns (actions: seq<Action>)
    ensures Run(c, Blank(), actions) ==
            InReview([FinanceLevel(1, 1), FinanceLevel(2, 2)], map[], EventsFor(1, SubmitEvents(UnderReview, false)))
  {
    var levels := [FinanceLevel(1, 1), FinanceLevel(2, 2)];
    actions := DraftedIsReachable(c, levels);
    RequiredOfTwo(levels[0], levels[1], OneExpense(Draft, None), Some(2));
    MidYearResolves(c.zone);
    SubmitsDraft(c, levels, levels, MidYear());
    actions := Then(c, actions, Drafted(levels), Submit(Owner(), 1, MidYear(), true));
  }

  lemma EditsLevels(c: Config, before: seq<Level>, after: seq<Level>, e: Expense, decisions: map<Id, seq<Decision>>,
                    events: seq<Event>)
    requires DistinctIds(after)
    ensures Step(c, WithExpense(e, before, decisions, events), EditLevels(after)) ==
              WithExpense(e, after, decisions, events)
  {
  }

  /** Submission, first approval and swap lead to a state with one approval at the level that is now
      the last. */
  lemma SwapIsReached(c: Config) returns (actions: seq<Action>, events: seq<Event>)
    ensures Run(c, Blank(), actions) ==
            InReview([FinanceLevel(1, 2), FinanceLevel(2, 1)], map[1 := [Decision(1, 3, VerdictApproved)]], events)
  {
    var levels, swapped := [FinanceLevel(1, 1), FinanceLevel(2, 2)], [FinanceLevel(1, 2), FinanceLevel(2, 1)];
    var decisions := map[1 := [Decision(1, 3, VerdictApproved)]];
    var submitted := EventsFor(1, SubmitEvents(UnderReview, false));
    events := submitted + EventsFor(1, [PendingFinanceEvent]);
    actions := SubmissionIsReached(c);
    FirstApproval(c);
    actions := Then(c, actions, InReview(levels, map[], submitted), Approve(FinanceUser(), 1, false, false, MidYear()));
    EditsLevels(c, levels, swapped, OneExpense(UnderReview, Some(MidYear())), decisions, events);
    actions := Then(c, actions, InReview(levels, decisions, events), EditLevels(swapped));
  }

  lemma SecondApproval(c: Config, events: seq<Event>)
    requires Consistent(InReview([FinanceLevel(1, 2), FinanceLevel(2, 1)], map[1 := [Decision(1, 3, VerdictApproved)]],
                                 events))
    ensures var before := InReview([FinanceLevel(1, 2), FinanceLevel(2, 1)],
                                   map[1 := [Decision(1, 3, VerdictApproved)]], events);
            var s := Step(c, before, Approve(FinanceUser(), 1, false, false, MidYear()));
            && 1 in s.expenses && s.expenses[1].status == UnderReview
            && Required(s, s.expenses[1]) == [FinanceLevel(2, 1), FinanceLevel(1, 2)]
            && ActiveStage(s.expenses[1], Required(s, s.expenses[1]), DecisionsOn(s, 1)).None?
  {
    var first, second := FinanceLevel(1, 2), FinanceLevel(2, 1);
    var decisions := map[1 := [Decision(1, 3, VerdictApproved)]];
    var s := InReview([first, second], decisions, events);
    RequiredOfTwo(first, second, s.expenses[1], Some(2));
    assert decisions[1][1..] == [];
    FinanceApproves(c, [first, second], decisions, events, second, first);
    SwapStrandsExpense(c, s, FinanceUser(), 1, false, false, MidYear(), first, second, 3);
  }

  /** The expense is under review and approved at every required level, and nobody can act on it. */
  ghost predicate IsStranded(s: State, id: Id) {
    && id in s.expenses && s.expenses[id].status == UnderReview
    && var required := Required(s, s.expenses[id]);
    && required != [] && ActiveStage(s.expenses[id], required, DecisionsOn(s, id)).None?
    && (forall level :: level in required ==> SomeApproval(DecisionsOn(s, id), level.id))
  }

  lemma StrandedExpenseIsReachable(c: Config) returns (actions: seq<Action>)
    ensures IsInitial(Blank()) && IsStranded(Run(c, Blank(), actions), 1)
  {
    var before, events := SwapIsReached(c);
    var s := InReview([FinanceLevel(1, 2), FinanceLevel(2, 1)], map[1 := [Decision(1, 3, VerdictApproved)]], events);
    ReachedIsConsistent(c, before, s);
    SecondApproval(c, events);
    actions := Then(c, before, s, Approve(FinanceUser(), 1, false, false, MidYear()));
    var end := Run(c, Blank(), actions);
    ReachedIsConsistent(c, actions, end);
    assert ExpenseOk(end.expenses[1], DecisionsOn(end, 1));
    NoStageWhenAllDecided(Required(end, end.expenses[1]), DecisionsOn(end, 1));
  }

  // ---------- A deactivated level ----------

  function Waiting(managerLevel: bool): State {
    WithExpense(OneExpense(Submitted, Some(MidYear())), [ManagerLevel(managerLevel), FinanceLevel(2, 2)], map[],
                EventsFor(1, SubmitEvents(Submitted, false)))
  }

  lemma WaitingIsReachable(c: Config) returns (actions: seq<Action>)
    ensures Run(c, Blank(), actions) == Waiting(false)
  {
    var levels, edited := [ManagerLevel(true), FinanceLevel(2, 2)], [ManagerLevel(false), FinanceLevel(2, 2)];
    actions := DraftedIsReachable(c, levels);
    RequiredOfTwo(levels[0], levels[1], OneExpense(Draft, None), Some(2));
    MidYearResolves(c.zone);
    SubmitsDraft(c, levels, levels, MidYear());
    actions := Then(c, actions, Drafted(levels), Submit(Owner(), 1, MidYear(), true));
    EditsLevels(c, levels, edited, Waiting(true).expenses[1], map[], Waiting(true).events);
    actions := Then(c, actions, Waiting(true), EditLevels(edited));
  }

  lemma WaitingIsBlocked(auth: AuthUser, now: int)
    ensures StageToDecide(Waiting(false), auth, 1, now).Err?
    ensures IsListed(Waiting(false), FinanceUser(), 1, now)
  {
    var s := Waiting(false);
    RequiredOfOne(ManagerLevel(false), FinanceLevel(2, 2), s.expenses[1], Some(2));
    DeactivationBlocksDecisions(s, 1, FinanceLevel(2, 2), auth, now);
  }

  /** A run after which an expense is on the list of the finance user although nobody's decision on
      it is accepted, at any time. */
  lemma UndecidableExpenseIsReachable(c: Config) returns (actions: seq<Action>)
    ensures var s := Run(c, Blank(), actions);
            && 1 in s.expenses && IsPending(s.expenses[1].status)
            && (forall now :: IsListed(s, FinanceUser(), 1, now))
            && (forall auth, now :: StageToDecide(s, auth, 1, now).Err?)
  {
    actions := WaitingIsReachable(c);
    forall auth, now
      ensures StageToDecide(Waiting(false), auth, 1, now).Err?
      ensures IsListed(Waiting(false), FinanceUser(), 1, now)
    {
      WaitingIsBlocked(auth, now);
    }
  }

  // ---------- A misplaced instant ----------

  function WithBudget(key: Key): State {
    Drafted([]).(budgets := map[key := BudgetRow(1000, true, 0, 0)])
  }

  lemma BudgetIsReachable(c: Config, year: int) returns (actions: seq<Action>)
    requires ValidYear(year)
    ensures Run(c, Blank(), actions) == WithBudget((1, year))
  {
    actions := DraftedIsReachable(c, []);
    actions := Then(c, actions, Drafted([]), CreateBudget((1, year), 1000, year));
  }

  lemma BudgetAgrees(c: Config, key: Key)
    ensures Placed(c, WithBudget(key), key) && RowAgrees(c, WithBudget(key), key)
  {
    TotalZero(PipelineColumn(WithBudget(key).expenses, key, c.zone));
    TotalZero(ReimbursedColumn(WithBudget(key).expenses, key, c.zone));
  }

  lemma SubmitsWithinBudget(c: Config, ms: int)
    requires ValidYear(ResolveBudgetYear(ms, c.zone))
    ensures var tx := SubmitTx(c, WithBudget((1, ResolveBudgetYear(ms, c.zone))), Owner(), 1, ms, true);
            tx.Ok? && tx.value.after.departmentId == Some(1)
  {
  }

  lemma MisplacedSubmissionBreaks(c: Config, ms: int)
    requires ValidYear(ResolveBudgetYear(ms, c.zone)) && !InBudgetYear(ms, ResolveBudgetYear(ms, c.zone), c.zone)
    requires Consistent(WithBudget((1, ResolveBudgetYear(ms, c.zone))))
    ensures var key := (1, ResolveBudgetYear(ms, c.zone));
            var submit := Submit(Owner(), 1, ms, true);
            && Perform(c, WithBudget(key), submit).Ok?
            && !RowAgrees(c, Step(c, WithBudget(key), submit), key)
  {
    var key := (1, ResolveBudgetYear(ms, c.zone));
    BudgetAgrees(c, key);
    SubmitsWithinBudget(c, ms);
    SubmissionKeepsAgreementExactly(c, WithBudget(key), Owner(), 1, ms, true, key);
  }

  /** In every zone without exact ranges there is a run in which an accepted submission takes an
      active, agreeing row out of agreement. */
  lemma DisagreementIsReachable(c: Config) returns (before: seq<Action>, submit: Action, key: Key)
    requires !RangesAreExact(c.zone)
    ensures submit.Submit? && Perform(c, Run(c, Blank(), before), submit).Ok?
    ensures RowAgrees(c, Run(c, Blank(), before), key) && RowIsActive(Run(c, Blank(), before), key)
    ensures !RowAgrees(c, Run(c, Blank(), before + [submit]), key)
  {
    var ms, holder := MisplacedInstant(c.zone);
    key := (1, ResolveBudgetYear(ms, c.zone));
    submit := Submit(Owner(), 1, ms, true);
    before := BudgetIsReachable(c, key.1);
    ReachedIsConsistent(c, before, WithBudget(key));
    BudgetAgrees(c, key);
    MisplacedSubmissionBreaks(c, ms);
    var all := Then(c, before, WithBudget(key), submit);
  }

  // ---------- A misplaced expense after a recalculation ----------

  lemma RequiredOfSingle(a: Level, e: Expense, managerId: Option<Id>)
    requires IsRequired(a, e, managerId)
    ensures RequiredLevels(e, [a], managerId) == [a]
  {
    assert [a][1..] == [];
    assert Applicable([a], e, managerId) == [a];
    assert SortByRank([]) == [] && InsertByRank(a, []) == [a];
  }

  /** The expense was submitted at `ms` and awaits the finance user. */
  function Pending(ms: int, budgets: map<Key, BudgetRow>): State {
    WithExpense(OneExpense(UnderReview, Some(ms)), [FinanceLevel(1, 1)], map[],
                EventsFor(1, SubmitEvents(UnderReview, false))).(budgets := budgets)
  }

  lemma PendingIsReachable(c: Config, ms: int, year: int) returns (actions: seq<Action>)
    requires ValidYear(ResolveBudgetYear(ms, c.zone)) && ValidYear(year)
    ensures Run(c, Blank(), actions) == Pending(ms, map[(1, year) := BudgetRow(1000, true, 0, 0)])
  {
    var level := FinanceLevel(1, 1);
    RequiredOfSingle(level, OneExpense(Draft, None), Some(2));
    SubmitsDraft(c, [level], [level], ms);
    actions := DraftedIsReachable(c, [level]);
    actions := Then(c, actions, Drafted([level]), Submit(Owner(), 1, ms, true));
    CreatesBudget(c, ms, year);
    actions := Then(c, actions, Pending(ms, map[]), CreateBudget((1, year), 1000, year));
  }

  lemma CreatesBudget(c: Config, ms: int, year: int)
    requires ValidYear(year)
    ensures Step(c, Pending(ms, map[]), CreateBudget((1, year), 1000, year)) ==
            Pending(ms, map[(1, year) := BudgetRow(1000, true, 0, 0)])
  {
  }

  /** Both recalculations, one after the other. */
  lemma RecalculatesBoth(c: Config, actions: seq<Action>, s: State, key: Key) returns (longer: seq<Action>, next: State)
    requires Run(c, Blank(), actions) == s && ValidYear(key.1) && RowIsActive(s, key)
    ensures Run(c, Blank(), longer) == next && next == s.(budgets := next.budgets)
    ensures RowAgrees(c, next, key) && RowIsActive(next, key)
  {
    var once := Step(c, s, Recalculate(key, true));
    longer := Then(c, actions, s, Recalculate(key, true));
    longer := Then(c, longer, once, Recalculate(key, false));
    next := Step(c, once, Recalculate(key, false));
    RecalculationAgrees(s.budgets, key, s.expenses, c.zone);
  }

  lemma FinanceRejects(c: Config, ms: int, budgets: map<Key, BudgetRow>)
    ensures RejectTx(Pending(ms, budgets), FinanceUser(), 1, true, ms).Ok?
  {
    var s := Pending(ms, budgets);
    var level := FinanceLevel(1, 1);
    RequiredOfSingle(level, s.expenses[1], Some(2));
    assert Required(s, s.expenses[1]) == [level];
    assert IsFirstOpen([level], [], 0);
    assert ReadyForStage(level, s.expenses[1], [level], DecisionsOn(s, 1));
  }

  lemma IsMisplaced(c: Config, ms: int, key: Key, members: Members)
    requires InBudgetYear(ms, key.1, c.zone) && ResolveBudgetYear(ms, c.zone) != key.1 && key.0 == 1
    ensures var e := OneExpense(UnderReview, Some(ms));
            !WellPlaced(e, key, c.zone) && BookedOn(ToSnapshot(e), members, c.zone) != Some(key)
  {
  }

  lemma MisplacedRejectionBreaks(c: Config, s: State, ms: int, key: Key)
    requires InBudgetYear(ms, key.1, c.zone) && ResolveBudgetYear(ms, c.zone) != key.1 && key.0 == 1
    requires s == Pending(ms, s.budgets) && Consistent(s) && RowAgrees(c, s, key) && RowIsActive(s, key)
    ensures var tx := RejectTx(s, FinanceUser(), 1, true, ms);
            tx.Ok? && !RowAgrees(c, Commit(c, s, tx.value), key)
  {
    FinanceRejects(c, ms, s.budgets);
    IsMisplaced(c, ms, key, MembersOf(s.users));
    RejectionKeepsAgreementExactly(c, s, FinanceUser(), 1, true, ms, key);
  }

  /** The row of the year whose range holds the instant agrees, as it was recalculated. */
  lemma MisplacedIsReachable(c: Config, ms: int, holder: int) returns (actions: seq<Action>, s: State)
    requires ValidYear(ResolveBudgetYear(ms, c.zone)) && ValidYear(holder)
    ensures Run(c, Blank(), actions) == s && s == Pending(ms, s.budgets) && Consistent(s)
    ensures RowAgrees(c, s, (1, holder)) && RowIsActive(s, (1, holder))
  {
    var key: Key := (1, holder);
    actions := PendingIsReachable(c, ms, holder);
    actions, s := RecalculatesBoth(c, actions, Pending(ms, map[key := BudgetRow(1000, true, 0, 0)]), key);
    ReachedIsConsistent(c, actions, s);
  }

  lemma RejectStep(c: Config, s: State, auth: AuthUser, id: Id, now: int)
    requires RejectTx(s, auth, id, true, now).Ok?
    ensures Perform(c, s, Reject(auth, id, true, now)).Ok?
    ensures Step(c, s, Reject(auth, id, true, now)) == Commit(c, s, RejectTx(s, auth, id, true, now).value)
  {
  }

  /** In every such zone there is also a run in which a rejection does it: the row agreed because it
      had been recalculated, and it held an expense that is booked elsewhere. */
  lemma RejectionDisagreementIsReachable(c: Config) returns (before: seq<Action>, reject: Action, key: Key)
    requires !RangesAreExact(c.zone)
    ensures reject.Reject? && Perform(c, Run(c, Blank(), before), reject).Ok?
    ensures RowAgrees(c, Run(c, Blank(), before), key) && RowIsActive(Run(c, Blank(), before), key)
    ensures !RowAgrees(c, Run(c, Blank(), before + [reject]), key)
  {
    var ms, holder := MisplacedInstant(c.zone);
    var s;
    key := (1, holder);
    reject := Reject(FinanceUser(), 1, true, ms);
    before, s := MisplacedIsReachable(c, ms, holder);
    MisplacedRejectionBreaks(c, s, ms, key);
    RejectStep(c, s, FinanceUser(), 1, ms);
    RunSnoc(c, Blank(), before, reject);
  }
}
