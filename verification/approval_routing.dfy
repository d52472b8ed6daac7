/** Which approval levels an expense needs, which one is active, and what a decision leads to. */
module ApprovalRouting {
  import opened Domain

  datatype ApproverType = DepartmentManager | FinanceManager

  datatype Level = Level(
    id: Id,
    rank: int,
    approverType: ApproverType,
    minimumAmount: int,
    maximumAmount: Option<int>,
    isActive: bool)

  datatype Verdict = VerdictApproved | VerdictRejected

  /** A row of expense_approvals for one expense. */
  datatype Decision = Decision(levelId: Id, approverId: Id, verdict: Verdict)

  // ---------- Required levels ----------

  /** The owner of an expense does not need the approval of the department manager when the
      owner is that manager. */
  predicate SkipsDepartmentManager(ownerId: Id, managerId: Option<Id>) {
    managerId == Some(ownerId)
  }

  predicate LevelApplies(level: Level, amount: int) {
    && !(amount < level.minimumAmount)
    && !(level.maximumAmount.Some? && level.maximumAmount.value < amount)
  }

  predicate IsRequired(level: Level, e: Expense, managerId: Option<Id>) {
    && level.isActive
    && LevelApplies(level, e.amount)
    && (level.approverType != DepartmentManager || !SkipsDepartmentManager(e.userId, managerId))
  }

  /** The levels that have to approve an amount; the manager's own expenses need no manager. */
  predicate IsFor(level: Level, amount: int, ownerManages: bool) {
    && level.isActive
    && level.minimumAmount <= amount
    && (level.maximumAmount.None? || amount <= level.maximumAmount.value)
    && (level.approverType == FinanceManager || !ownerManages)
  }

  function Applicable(levels: seq<Level>, e: Expense, managerId: Option<Id>): seq<Level> {
    if levels == [] then []
    else
      var rest := Applicable(levels[1..], e, managerId);
      if IsRequired(levels[0], e, managerId) then [levels[0]] + rest else rest
  }

  /** Stable insertion by rank. */
  function InsertByRank(level: Level, sorted: seq<Level>): seq<Level> {
    if sorted == [] || level.rank <= sorted[0].rank then [level] + sorted
    else [sorted[0]] + InsertByRank(level, sorted[1..])
  }

  function SortByRank(levels: seq<Level>): seq<Level> {
    if levels == [] then [] else InsertByRank(levels[0], SortByRank(levels[1..]))
  }

  function RequiredLevels(e: Expense, levels: seq<Level>, managerId: Option<Id>): seq<Level> {
    SortByRank(Applicable(levels, e, managerId))
  }

  predicate DistinctIds(levels: seq<Level>) {
    forall i, j :: 0 <= i < j < |levels| ==> levels[i].id != levels[j].id
  }

  predicate Sorted(levels: seq<Level>) {
    forall i, j :: 0 <= i < j < |levels| ==> levels[i].rank <= levels[j].rank
  }

  lemma {:induction false} InsertCounts(level: Level, sorted: seq<Level>)
    ensures multiset(InsertByRank(level, sorted)) == multiset(sorted) + multiset{level}
  {
    if sorted == [] || level.rank <= sorted[0].rank {
    } else {
      InsertCounts(level, sorted[1..]);
      assert sorted == [sorted[0]] + sorted[1..];
    }
  }

  lemma {:induction false} InsertSorts(level: Level, sorted: seq<Level>)
    requires Sorted(sorted)
    ensures Sorted(InsertByRank(level, sorted))
  {
    if sorted == [] || level.rank <= sorted[0].rank {
    } else {
      InsertSorts(level, sorted[1..]);
      InsertCounts(level, sorted[1..]);
      var rest := InsertByRank(level, sorted[1..]);
      forall i | 0 <= i < |rest|
        ensures sorted[0].rank <= rest[i].rank
      {
        assert rest[i] in multiset(rest);
        assert rest[i] == level || rest[i] in sorted[1..];
      }
    }
  }

  lemma {:induction false} SortKeeps(levels: seq<Level>)
    ensures Sorted(SortByRank(levels))
    ensures multiset(SortByRank(levels)) == multiset(levels)
  {
    if levels != [] {
      SortKeeps(levels[1..]);
      InsertCounts(levels[0], SortByRank(levels[1..]));
      InsertSorts(levels[0], SortByRank(levels[1..]));
      assert levels == [levels[0]] + levels[1..];
    }
  }

  lemma {:induction false} ApplicableKeeps(levels: seq<Level>, e: Expense, managerId: Option<Id>)
    ensures forall level :: level in Applicable(levels, e, managerId) <==>
                            level in levels && IsRequired(level, e, managerId)
    ensures multiset(Applicable(levels, e, managerId)) <= multiset(levels)
  {
    if levels != [] {
      ApplicableKeeps(levels[1..], e, managerId);
      assert levels == [levels[0]] + levels[1..];
    }
  }

  lemma DistinctByCount(levels: seq<Level>, some: seq<Level>)
    requires DistinctIds(levels) && multiset(some) <= multiset(levels)
    ensures DistinctIds(some)
  {
    forall i, j | 0 <= i < j < |some|
      ensures some[i].id != some[j].id
    {
      assert some[i] in multiset(some) && some[j] in multiset(some);
      assert some[i] in levels && some[j] in levels;
      var a, b :| 0 <= a < |levels| && 0 <= b < |levels| && levels[a] == some[i] && levels[b] == some[j];
      if some[i] == some[j] {
        TwiceInSeq(some, i, j);
        OnceInSeq(levels, a);
        assert false;
      }
    }
  }

  lemma TwiceInSeq(s: seq<Level>, i: nat, j: nat)
    requires i < j < |s| && s[i] == s[j]
    ensures 2 <= multiset(s)[s[i]]
  {
    assert s == s[..i] + [s[i]] + s[i + 1..j] + [s[j]] + s[j + 1..];
  }

  lemma OnceInSeq(s: seq<Level>, i: nat)
    requires DistinctIds(s) && i < |s|
    ensures multiset(s)[s[i]] == 1
  {
    assert s == s[..i] + [s[i]] + s[i + 1..];
    assert s[i] !in s[..i] && s[i] !in s[i + 1..];
  }

  /** The required levels are exactly the active levels that apply, each once, in rank order. */
  lemma RequiredLevelsSpec(e: Expense, levels: seq<Level>, managerId: Option<Id>)
    requires DistinctIds(levels)
    ensures var required := RequiredLevels(e, levels, managerId);
            && Sorted(required)
            && DistinctIds(required)
            && (forall level :: level in required <==> level in levels && IsRequired(level, e, managerId))
            && (forall level :: level in required <==>
                level in levels && IsFor(level, e.amount, managerId == Some(e.userId)))
  {
    var applicable := Applicable(levels, e, managerId);
    SortKeeps(applicable);
    ApplicableKeeps(levels, e, managerId);
    DistinctByCount(levels, RequiredLevels(e, levels, managerId));
    forall level
      ensures level in RequiredLevels(e, levels, managerId) <==> level in applicable
    {
      assert level in RequiredLevels(e, levels, managerId) <==> level in multiset(applicable);
    }
  }

  // ---------- The active stage ----------

  predicate IsPending(status: Status) {
    status == Submitted || status == UnderReview
  }

  /** The first decision recorded at a level. */
  function DecisionAt(decisions: seq<Decision>, levelId: Id): Option<Decision> {
    if decisions == [] then None
    else if decisions[0].levelId == levelId then Some(decisions[0])
    else DecisionAt(decisions[1..], levelId)
  }

  lemma {:induction false} DecisionAtFinds(decisions: seq<Decision>, levelId: Id)
    ensures match DecisionAt(decisions, levelId)
            case Some(d) => d in decisions && d.levelId == levelId
            case None => forall d :: d in decisions ==> d.levelId != levelId
  {
    if decisions != [] && decisions[0].levelId != levelId {
      DecisionAtFinds(decisions[1..], levelId);
    }
  }

  /** The unique key (expense, level). */
  predicate OnePerLevel(decisions: seq<Decision>) {
    forall i, j :: 0 <= i < j < |decisions| ==> decisions[i].levelId != decisions[j].levelId
  }

  lemma {:induction false} DecisionAtIndex(decisions: seq<Decision>, i: nat)
    requires OnePerLevel(decisions) && i < |decisions|
    ensures DecisionAt(decisions, decisions[i].levelId) == Some(decisions[i])
  {
    if i != 0 {
      DecisionAtIndex(decisions[1..], i - 1);
    }
  }

  /** The first required level without a decision, provided every level before it was approved. */
  predicate IsFirstOpen(required: seq<Level>, decisions: seq<Decision>, index: int) {
    && 0 <= index < |required|
    && DecisionAt(decisions, required[index].id).None?
    && forall i :: 0 <= i < index ==> ApprovedAt(decisions, required[i].id)
  }

  predicate ApprovedAt(decisions: seq<Decision>, levelId: Id) {
    var d := DecisionAt(decisions, levelId);
    d.Some? && d.value.verdict == VerdictApproved
  }

  function FirstOpen(required: seq<Level>, decisions: seq<Decision>): (stage: Option<Level>)
    ensures stage.Some? ==> exists i :: IsFirstOpen(required, decisions, i) && stage.value == required[i]
    ensures stage.None? ==> forall i :: !IsFirstOpen(required, decisions, i)
  {
    FirstOpenFrom(required, decisions, 0)
  }

  function FirstOpenFrom(required: seq<Level>, decisions: seq<Decision>, from: nat): (stage: Option<Level>)
    requires from <= |required|
    requires forall i :: 0 <= i < from ==> ApprovedAt(decisions, required[i].id)
    ensures stage.Some? ==> exists i :: IsFirstOpen(required, decisions, i) && stage.value == required[i]
    ensures stage.None? ==> forall i :: !IsFirstOpen(required, decisions, i)
    decreases |required| - from
  {
    if from == |required| then
      assert forall i :: 0 <= i < |required| ==> ApprovedAt(decisions, required[i].id);
      None
    else
      var decision := DecisionAt(decisions, required[from].id);
      if decision.None? then
        assert IsFirstOpen(required, decisions, from);
        Some(required[from])
      else if decision.value.verdict != VerdictApproved then
        assert !ApprovedAt(decisions, required[from].id);
        assert forall i :: 0 <= i < from ==> ApprovedAt(decisions, required[i].id);
        None
      else FirstOpenFrom(required, decisions, from + 1)
  }

  function ActiveStage(e: Expense, required: seq<Level>, decisions: seq<Decision>): Option<Level> {
    if IsPending(e.status) then FirstOpen(required, decisions) else None
  }

  lemma FirstOpenIsUnique(required: seq<Level>, decisions: seq<Decision>, i: int, j: int)
    requires IsFirstOpen(required, decisions, i) && IsFirstOpen(required, decisions, j)
    ensures i == j
  {
  }

  method GetActiveStage(e: Expense, levels: seq<Level>, managerId: Option<Id>, decisions: seq<Decision>)
    returns (stage: Option<Level>)
    ensures stage == ActiveStage(e, RequiredLevels(e, levels, managerId), decisions)
  {
    if !IsPending(e.status) {
      return None;
    }
    var required := RequiredLevels(e, levels, managerId);
    for i := 0 to |required|
      invariant forall k :: 0 <= k < i ==> ApprovedAt(decisions, required[k].id)
    {
      var decision := DecisionAt(decisions, required[i].id);
      if decision.None? {
        assert IsFirstOpen(required, decisions, i);
        var found := FirstOpen(required, decisions);
        var j :| IsFirstOpen(required, decisions, j) && found.value == required[j];
        FirstOpenIsUnique(required, decisions, i, j);
        return Some(required[i]);
      }
      if decision.value.verdict != VerdictApproved {
        assert !ApprovedAt(decisions, required[i].id);
        assert forall k :: !IsFirstOpen(required, decisions, k);
        return None;
      }
    }
    assert forall k :: !IsFirstOpen(required, decisions, k);
    return None;
  }

  // ---------- Guards ----------

  function IndexOf(required: seq<Level>, levelId: Id): (index: int)
    ensures -1 <= index < |required|
    ensures 0 <= index ==> required[index].id == levelId
    ensures index == -1 ==> forall i :: 0 <= i < |required| ==> required[i].id != levelId
    ensures forall i :: 0 <= i < index ==> required[i].id != levelId
  {
    if required == [] then -1
    else if required[0].id == levelId then 0
    else
      var rest := IndexOf(required[1..], levelId);
      if rest == -1 then -1 else rest + 1
  }

  lemma IndexOfDistinct(required: seq<Level>, i: nat)
    requires DistinctIds(required) && i < |required|
    ensures IndexOf(required, required[i].id) == i
  {
  }

  /** Some decision at the level approves. */
  predicate SomeApproval(decisions: seq<Decision>, levelId: Id) {
    exists d :: d in decisions && d.levelId == levelId && d.verdict == VerdictApproved
  }

  /** One of the decisions approves at the level. */
  predicate ApprovalFor(decisions: seq<Decision>, levelId: Id) {
    exists i :: 0 <= i < |decisions| && decisions[i].levelId == levelId && decisions[i].verdict == VerdictApproved
  }

  lemma SomeApprovalIsOne(decisions: seq<Decision>, levelId: Id)
    ensures SomeApproval(decisions, levelId) <==> ApprovalFor(decisions, levelId)
  {
  }

  predicate PriorLevelsComplete(stage: Level, required: seq<Level>, decisions: seq<Decision>) {
    var index := IndexOf(required, stage.id);
    0 <= index && forall i :: 0 <= i < index ==> SomeApproval(decisions, required[i].id)
  }

  method AssertPriorLevelsComplete(stage: Level, required: seq<Level>, decisions: seq<Decision>)
    returns (thrown: Option<Error>)
    ensures thrown == if PriorLevelsComplete(stage, required, decisions) then None else Some(Conflict)
    ensures thrown.None? <==>
              exists i :: 0 <= i < |required| && required[i].id == stage.id
                          && forall k :: 0 <= k < i ==>
                              required[k].id != stage.id && ApprovalFor(decisions, required[k].id)
  {
    var stageIndex := IndexOf(required, stage.id);
    forall levelId: Id
      ensures SomeApproval(decisions, levelId) <==> ApprovalFor(decisions, levelId)
    {
      SomeApprovalIsOne(decisions, levelId);
    }
    if stageIndex < 0 {
      return Some(Conflict);
    }
    for i := 0 to stageIndex
      invariant forall k :: 0 <= k < i ==> SomeApproval(decisions, required[k].id)
    {
      if !SomeApproval(decisions, required[i].id) {
        return Some(Conflict);
      }
    }
    return None;
  }

  predicate StatusFitsStage(stage: Level, status: Status, required: seq<Level>) {
    var index := IndexOf(required, stage.id);
    && !(0 < index && status != UnderReview)
    && !(index == 0 && stage.approverType == DepartmentManager && status != Submitted)
    && !(index == 0 && stage.approverType == FinanceManager && status != UnderReview)
  }

  /** The status that an expense waiting at a position of its chain has. */
  function StatusAt(required: seq<Level>, index: nat): Status
    requires index < |required|
  {
    if index == 0 && required[0].approverType == DepartmentManager then Submitted else UnderReview
  }

  lemma StatusFitsExactly(required: seq<Level>, index: nat, status: Status)
    requires DistinctIds(required) && index < |required|
    ensures StatusFitsStage(required[index], status, required) <==> status == StatusAt(required, index)
  {
    IndexOfDistinct(required, index);
  }

  /** The three readiness guards accept the stage. */
  predicate ReadyForStage(stage: Level, e: Expense, required: seq<Level>, decisions: seq<Decision>) {
    var active := ActiveStage(e, required, decisions);
    && active.Some? && active.value.id == stage.id
    && PriorLevelsComplete(stage, required, decisions)
    && StatusFitsStage(stage, e.status, required)
  }

  /** Of the three guards only the one on the status can reject the active stage. */
  lemma ActiveStageIsReady(e: Expense, required: seq<Level>, decisions: seq<Decision>)
    requires DistinctIds(required)
    requires ActiveStage(e, required, decisions).Some?
    ensures var stage := ActiveStage(e, required, decisions).value;
            && PriorLevelsComplete(stage, required, decisions)
            && (ReadyForStage(stage, e, required, decisions) <==> StatusFitsStage(stage, e.status, required))
  {
    var stage := ActiveStage(e, required, decisions).value;
    var index :| IsFirstOpen(required, decisions, index) && stage == required[index];
    IndexOfDistinct(required, index);
    forall i | 0 <= i < index
      ensures SomeApproval(decisions, required[i].id)
    {
      assert ApprovedAt(decisions, required[i].id);
      DecisionAtFinds(decisions, required[i].id);
    }
  }

  /** A guard that does reject: the manager level of an expense waiting for its manager is
      deactivated, so the finance level becomes active while the status is still SUBMITTED. */
  lemma DeactivatedLevelBlocksDecisions(e: Expense, finance: Level)
    requires e.status == Submitted && finance.approverType == FinanceManager
    ensures ActiveStage(e, [finance], []) == Some(finance)
    ensures !ReadyForStage(finance, e, [finance], [])
  {
    assert IsFirstOpen([finance], [], 0);
  }

  // ---------- Statuses ----------

  function InitialSubmitStatus(required: seq<Level>): Status {
    if required == [] then Approved
    else if required[0].approverType == FinanceManager then UnderReview
    else Submitted
  }

  function StatusAfterLevelApproval(stage: Level, required: seq<Level>): Status {
    var index := IndexOf(required, stage.id);
    if index < 0 || |required| - 1 <= index then Approved else UnderReview
  }

  /** An approval that ends in APPROVED leaves every required level approved. The converse fails
      exactly when the stage decided is not the last one but every later level had been approved
      before it, which takes a change of the levels in between. */
  lemma {:induction false} ApprovalOutcome(e: Expense, required: seq<Level>, decisions: seq<Decision>, approverId: Id)
    requires DistinctIds(required)
    requires ActiveStage(e, required, decisions).Some?
    ensures var stage := ActiveStage(e, required, decisions).value;
            var index := IndexOf(required, stage.id);
            var after := decisions + [Decision(stage.id, approverId, VerdictApproved)];
            var complete := forall level :: level in required ==> SomeApproval(after, level.id);
            && (StatusAfterLevelApproval(stage, required) == Approved ==> complete)
            && (complete && StatusAfterLevelApproval(stage, required) != Approved <==>
                && index < |required| - 1
                && forall i :: index < i < |required| ==> SomeApproval(decisions, required[i].id))
  {
    var stage := ActiveStage(e, required, decisions).value;
    ActiveStageIsReady(e, required, decisions);
    var index :| IsFirstOpen(required, decisions, index) && stage == required[index];
    IndexOfDistinct(required, index);
    var decided := Decision(stage.id, approverId, VerdictApproved);
    var after := decisions + [decided];
    forall i | 0 <= i < |required|
      ensures SomeApproval(after, required[i].id) <==> i <= index || SomeApproval(decisions, required[i].id)
    {
      if i == index {
        assert decided in after;
      } else if SomeApproval(decisions, required[i].id) {
        var d :| d in decisions && d.levelId == required[i].id && d.verdict == VerdictApproved;
        assert d in after;
      }
    }
    if forall level :: level in required ==> SomeApproval(after, level.id) {
      forall i | index < i < |required|
        ensures SomeApproval(decisions, required[i].id)
      {
        assert required[i] in required;
      }
    }
  }

  // ---------- The chain shown to users ----------

  datatype StepStatus = Waiting | Pending | StepApproved | StepRejected

  datatype ChainStep = ChainStep(level: Level, status: StepStatus)

  function StepFor(level: Level, active: Option<Level>, decisions: seq<Decision>): ChainStep {
    var decision := DecisionAt(decisions, level.id);
    if decision.Some? && decision.value.verdict == VerdictApproved then ChainStep(level, StepApproved)
    else if decision.Some? && decision.value.verdict == VerdictRejected then ChainStep(level, StepRejected)
    else if active.Some? && active.value.id == level.id then ChainStep(level, Pending)
    else ChainStep(level, Waiting)
  }

  /** A decided step shows its verdict, the active one is pending, and all others wait. */
  function ShownStatus(decisions: seq<Decision>, levelId: Id, active: bool): StepStatus {
    match DecisionAt(decisions, levelId)
    case Some(d) => if d.verdict.VerdictRejected? then StepRejected else StepApproved
    case None => if active then Pending else Waiting
  }

  function BuildApprovalChain(e: Expense, required: seq<Level>, decisions: seq<Decision>): seq<ChainStep> {
    var active := ActiveStage(e, required, decisions);
    seq(|required|, i requires 0 <= i < |required| => StepFor(required[i], active, decisions))
  }

  /** The chain lists the required levels in order, shows at most one pending step, and that step
      is the active stage, with every step before it approved. */
  lemma ChainShowsActiveStage(e: Expense, required: seq<Level>, decisions: seq<Decision>)
    requires DistinctIds(required)
    ensures var chain := BuildApprovalChain(e, required, decisions);
            var active := ActiveStage(e, required, decisions);
            && |chain| == |required|
            && (forall i :: 0 <= i < |chain| ==> chain[i].level == required[i])
            && (forall i :: 0 <= i < |chain| ==> (chain[i].status == Pending <==> active == Some(required[i])))
            && (forall i :: 0 <= i < |chain| ==>
                chain[i].status == ShownStatus(decisions, required[i].id, active == Some(required[i])))
            && (forall i, j :: 0 <= i < |chain| && 0 <= j < |chain| && chain[i].status == Pending ==>
                  (chain[j].status == Pending <==> i == j) && (j < i ==> chain[j].status == StepApproved))
  {
    var active := ActiveStage(e, required, decisions);
    if active.Some? {
      var index :| IsFirstOpen(required, decisions, index) && active.value == required[index];
      forall j | 0 <= j < index
        ensures StepFor(required[j], active, decisions).status == StepApproved
      {
        assert ApprovedAt(decisions, required[j].id);
      }
    }
  }
}
