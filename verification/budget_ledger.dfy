/** The cached totals of a department's annual budget: how each expense transition moves them,
    and how they are recomputed from the expenses. */
module BudgetLedger {
  import opened Domain
  import opened BudgetPeriod

  /** What the ledger looks at in an expense. */
  datatype Snapshot = Snapshot(
    userId: Id,
    departmentId: Option<Id>,
    submittedAt: Option<int>,
    status: Status,
    amount: int)

  function ToSnapshot(e: Expense): Snapshot {
    Snapshot(e.userId, e.departmentId, e.submittedAt, e.status, e.amount)
  }

  /** Department and calendar year; unique in the table. */
  type Key = (Id, int)

  datatype BudgetRow = BudgetRow(amountLimit: int, isActive: bool, committed: int, reimbursed: int)

  /** Each user's current department. */
  type Members = map<Id, Option<Id>>

  predicate CountsTowardCommitted(status: Status) {
    status == Submitted || status == UnderReview || status == Approved
  }

  predicate IsReimbursement(before: Option<Snapshot>, after: Option<Snapshot>) {
    before.Some? && before.value.status == Approved && after.Some? && after.value.status == Reimbursed
  }

  predicate AttributionChanged(before: Option<Snapshot>, after: Option<Snapshot>) {
    if before.None? || after.None? then before.Some? || after.Some?
    else
      var b, a := before.value, after.value;
      if !CountsTowardCommitted(b.status) && !CountsTowardCommitted(a.status) then false
      else if CountsTowardCommitted(b.status) != CountsTowardCommitted(a.status) then true
      else if b.submittedAt.None? || a.submittedAt.None? then true
      else
        || b.amount != a.amount
        || b.departmentId != a.departmentId
        || b.userId != a.userId
        || b.submittedAt != a.submittedAt
  }

  function ResolveDepartment(userId: Id, departmentId: Option<Id>, members: Members): Option<Id> {
    if departmentId.Some? then departmentId
    else if userId in members then members[userId]
    else None
  }

  /** The budget row a snapshot is booked on, if any. */
  function BookedOn(s: Snapshot, members: Members, zone: FixedZone): Option<Key> {
    var department := ResolveDepartment(s.userId, s.departmentId, members);
    if s.submittedAt.None? || department.None? then None
    else Some((department.value, ResolveBudgetYear(s.submittedAt.value, zone)))
  }

  /** How much of a row's committed amount is due to a snapshot. */
  function Contribution(s: Option<Snapshot>, key: Key, members: Members, zone: FixedZone): int {
    if s.Some? && CountsTowardCommitted(s.value.status) && BookedOn(s.value, members, zone) == Some(key)
    then s.value.amount
    else 0
  }

  function Clamp(x: int): int {
    if x < 0 then 0 else x
  }

  function AddCommitted(row: BudgetRow, delta: int): BudgetRow {
    if delta == 0 || !row.isActive then row else row.(committed := Clamp(row.committed + delta))
  }

  function AddReimbursed(row: BudgetRow, delta: int): BudgetRow {
    if delta == 0 || !row.isActive then row else row.(reimbursed := Clamp(row.reimbursed + delta))
  }

  /** The table after an expense went from `before` to `after`: a reimbursement adds the amount
      to the reimbursed column of its row, any other change adds the difference of the two
      contributions to the committed column of every active row. */
  function Synced(rows: map<Key, BudgetRow>, before: Option<Snapshot>, after: Option<Snapshot>,
                  members: Members, zone: FixedZone): map<Key, BudgetRow>
  {
    map k | k in rows ::
      if IsReimbursement(before, after) then
        if BookedOn(after.value, members, zone) == Some(k) then AddReimbursed(rows[k], after.value.amount)
        else rows[k]
      else
        AddCommitted(rows[k], Contribution(after, k, members, zone) - Contribution(before, k, members, zone))
  }

  /** Whenever the shortcut skips the update, no row would have changed. */
  lemma ShortcutSkipsNothing(before: Option<Snapshot>, after: Option<Snapshot>, key: Key,
                             members: Members, zone: FixedZone)
    requires !AttributionChanged(before, after)
    ensures Contribution(before, key, members, zone) == Contribution(after, key, members, zone)
  {
  }

  lemma SyncedRow(rows: map<Key, BudgetRow>, before: Option<Snapshot>, after: Option<Snapshot>, key: Key,
                  members: Members, zone: FixedZone)
    requires key in rows
    ensures Synced(rows, before, after, members, zone)[key] ==
              if IsReimbursement(before, after) then
                if BookedOn(after.value, members, zone) == Some(key) then AddReimbursed(rows[key], after.value.amount)
                else rows[key]
              else
                AddCommitted(rows[key],
                             Contribution(after, key, members, zone) - Contribution(before, key, members, zone))
  {
  }

  /** What a delta does to a row, in both columns: an inactive row is left alone, and an active one
      never goes below zero. */
  lemma DeltaSpec(row: BudgetRow, delta: int)
    ensures !row.isActive ==> AddCommitted(row, delta) == row && AddReimbursed(row, delta) == row
    ensures row.isActive && 0 <= row.committed ==>
              AddCommitted(row, delta) ==
                row.(committed := if row.committed + delta < 0 then 0 else row.committed + delta)
    ensures row.isActive && 0 <= row.reimbursed ==>
              AddReimbursed(row, delta) ==
                row.(reimbursed := if row.reimbursed + delta < 0 then 0 else row.reimbursed + delta)
  {
  }

  /** A row that is not active, and one that neither side is booked on, does not change. */
  lemma OtherRowsStay(rows: map<Key, BudgetRow>, before: Option<Snapshot>, after: Option<Snapshot>, key: Key,
                      members: Members, zone: FixedZone)
    requires key in rows
    requires !rows[key].isActive || !((before.Some? && BookedOn(before.value, members, zone) == Some(key))
                                      || (after.Some? && BookedOn(after.value, members, zone) == Some(key)))
    ensures Synced(rows, before, after, members, zone)[key] == rows[key]
  {
  }

  lemma ShortcutLeavesRows(rows: map<Key, BudgetRow>, before: Option<Snapshot>, after: Option<Snapshot>,
                           members: Members, zone: FixedZone)
    requires !AttributionChanged(before, after) && !IsReimbursement(before, after)
    ensures Synced(rows, before, after, members, zone) == rows
  {
    forall k | k in rows
      ensures Synced(rows, before, after, members, zone)[k] == rows[k]
    {
      ShortcutSkipsNothing(before, after, k, members, zone);
    }
  }

  lemma UncountedTransitionLeavesRows(rows: map<Key, BudgetRow>, a: Snapshot, b: Snapshot, members: Members,
                                      zone: FixedZone)
    requires !CountsTowardCommitted(a.status) && !CountsTowardCommitted(b.status)
    ensures Synced(rows, Some(a), Some(b), members, zone) == rows
  {
  }

  lemma DeltasAreSync(rows: map<Key, BudgetRow>, deltas: map<Key, int>, before: Option<Snapshot>,
                      after: Option<Snapshot>,
                      members: Members, zone: FixedZone)
    requires !IsReimbursement(before, after)
    requires forall k :: DeltaAt(deltas, k) ==
                         Contribution(after, k, members, zone) - Contribution(before, k, members, zone)
    ensures Synced(rows, before, after, members, zone) == map k | k in rows :: AddCommitted(rows[k], DeltaAt(deltas, k))
  {
    forall k | k in rows
      ensures Synced(rows, before, after, members, zone)[k] == AddCommitted(rows[k], DeltaAt(deltas, k))
    {
      DeltaIsSync(rows, DeltaAt(deltas, k), before, after, k, members, zone);
    }
  }

  lemma DeltaIsSync(rows: map<Key, BudgetRow>, delta: int, before: Option<Snapshot>, after: Option<Snapshot>, k: Key,
                    members: Members, zone: FixedZone)
    requires !IsReimbursement(before, after) && k in rows
    requires delta == Contribution(after, k, members, zone) - Contribution(before, k, members, zone)
    ensures Synced(rows, before, after, members, zone)[k] == AddCommitted(rows[k], delta)
  {
  }

  // ---------- Full sums ----------

  predicate InRange(e: Expense, key: Key, zone: FixedZone) {
    && e.departmentId == Some(key.0)
    && e.submittedAt.Some?
    && InBudgetYear(e.submittedAt.value, key.1, zone)
  }

  function PipelineSpend(e: Expense, key: Key, zone: FixedZone): int {
    if InRange(e, key, zone) && CountsTowardCommitted(e.status) then e.amount else 0
  }

  function ReimbursedSpend(e: Expense, key: Key, zone: FixedZone): int {
    if InRange(e, key, zone) && e.status == Reimbursed then e.amount else 0
  }

  function PipelineColumn(expenses: map<Id, Expense>, key: Key, zone: FixedZone): map<Id, int> {
    map id | id in expenses :: PipelineSpend(expenses[id], key, zone)
  }

  function ReimbursedColumn(expenses: map<Id, Expense>, key: Key, zone: FixedZone): map<Id, int> {
    map id | id in expenses :: ReimbursedSpend(expenses[id], key, zone)
  }

  function SumPipeline(expenses: map<Id, Expense>, key: Key, zone: FixedZone): int {
    Total(PipelineColumn(expenses, key, zone))
  }

  function SumReimbursed(expenses: map<Id, Expense>, key: Key, zone: FixedZone): int {
    Total(ReimbursedColumn(expenses, key, zone))
  }

  /** The cached totals are what a full scan of the expenses gives. */
  predicate Agrees(row: BudgetRow, expenses: map<Id, Expense>, key: Key, zone: FixedZone) {
    && row.committed == SumPipeline(expenses, key, zone) + SumReimbursed(expenses, key, zone)
    && row.reimbursed == SumReimbursed(expenses, key, zone)
  }

  /** The amount of an expense that a row holds, by status: committed in all four states after
      submission and before or after payment, reimbursed in the last one. */
  function Counted(e: Expense, key: Key, zone: FixedZone, statuses: set<Status>): int {
    if e.departmentId == Some(key.0) && e.submittedAt.Some?
       && YearStart(key.1, zone) <= e.submittedAt.value < YearStart(key.1 + 1, zone) && e.status in statuses
    then e.amount else 0
  }

  function CountedColumn(expenses: map<Id, Expense>, key: Key, zone: FixedZone, statuses: set<Status>): map<Id, int> {
    map id | id in expenses :: Counted(expenses[id], key, zone, statuses)
  }

  /** Agreement in terms of the expenses alone. */
  lemma AgreementMeans(row: BudgetRow, expenses: map<Id, Expense>, key: Key, zone: FixedZone)
    ensures Agrees(row, expenses, key, zone) <==>
              && row.committed ==
                   Total(CountedColumn(expenses, key, zone, {Submitted, UnderReview, Approved, Reimbursed}))
              && row.reimbursed == Total(CountedColumn(expenses, key, zone, {Reimbursed}))
  {
    var pipeline, reimbursed := PipelineColumn(expenses, key, zone), ReimbursedColumn(expenses, key, zone);
    var all := CountedColumn(expenses, key, zone, {Submitted, UnderReview, Approved, Reimbursed});
    TotalSplits(all, pipeline, reimbursed);
    assert CountedColumn(expenses, key, zone, {Reimbursed}) == reimbursed;
  }

  lemma PipelineAfterPut(expenses: map<Id, Expense>, id: Id, e: Expense, key: Key, zone: FixedZone)
    ensures SumPipeline(expenses[id := e], key, zone) == SumPipeline(expenses, key, zone)
            + PipelineSpend(e, key, zone)
            - (if id in expenses then PipelineSpend(expenses[id], key, zone) else 0)
  {
    TotalUpdate(PipelineColumn(expenses, key, zone), id, PipelineSpend(e, key, zone));
    assert PipelineColumn(expenses[id := e], key, zone)
        == PipelineColumn(expenses, key, zone)[id := PipelineSpend(e, key, zone)];
  }

  lemma ReimbursedAfterPut(expenses: map<Id, Expense>, id: Id, e: Expense, key: Key, zone: FixedZone)
    ensures SumReimbursed(expenses[id := e], key, zone) == SumReimbursed(expenses, key, zone)
            + ReimbursedSpend(e, key, zone)
            - (if id in expenses then ReimbursedSpend(expenses[id], key, zone) else 0)
  {
    TotalUpdate(ReimbursedColumn(expenses, key, zone), id, ReimbursedSpend(e, key, zone));
    assert ReimbursedColumn(expenses[id := e], key, zone)
        == ReimbursedColumn(expenses, key, zone)[id := ReimbursedSpend(e, key, zone)];
  }

  lemma SumsAfterRemove(expenses: map<Id, Expense>, id: Id, key: Key, zone: FixedZone)
    requires id in expenses
    ensures SumPipeline(expenses - {id}, key, zone)
            == SumPipeline(expenses, key, zone) - PipelineSpend(expenses[id], key, zone)
    ensures SumReimbursed(expenses - {id}, key, zone)
            == SumReimbursed(expenses, key, zone) - ReimbursedSpend(expenses[id], key, zone)
  {
    TotalRemove(PipelineColumn(expenses, key, zone), id);
    TotalRemove(ReimbursedColumn(expenses, key, zone), id);
    assert PipelineColumn(expenses - {id}, key, zone) == PipelineColumn(expenses, key, zone) - {id};
    assert ReimbursedColumn(expenses - {id}, key, zone) == ReimbursedColumn(expenses, key, zone) - {id};
  }

  lemma SumsAreNonNegative(expenses: map<Id, Expense>, key: Key, zone: FixedZone)
    requires forall id :: id in expenses ==> 0 < expenses[id].amount
    ensures 0 <= SumPipeline(expenses, key, zone)
    ensures 0 <= SumReimbursed(expenses, key, zone)
  {
    TotalNonNegative(PipelineColumn(expenses, key, zone));
    TotalNonNegative(ReimbursedColumn(expenses, key, zone));
  }

  // ---------- The cache follows the sums ----------

  /** An expense that left DRAFT carries its department and submission instant. */
  predicate Anchored(e: Expense) {
    e.status != Draft ==> e.departmentId.Some? && e.submittedAt.Some?
  }

  /** The sums count an expense under the row it is booked on: the instant lies in the range of the
      row's year exactly if it resolves to that year. */
  predicate WellPlaced(e: Expense, key: Key, zone: FixedZone) {
    (CountsTowardCommitted(e.status) || e.status == Reimbursed) && e.departmentId == Some(key.0)
    && e.submittedAt.Some? ==>
      (InBudgetYear(e.submittedAt.value, key.1, zone) <==> ResolveBudgetYear(e.submittedAt.value, zone) == key.1)
  }

  lemma ExactRangesPlaceWell(e: Expense, key: Key, zone: FixedZone)
    requires RangesAreExact(zone)
    ensures WellPlaced(e, key, zone)
  {
    if e.submittedAt.Some? {
      RangeMatchesYear(e.submittedAt.value, key.1, zone);
    }
  }

  /** The row a delta is applied to is the row whose full sum counts the expense. */
  lemma ContributionIsSpend(e: Expense, key: Key, members: Members, zone: FixedZone)
    requires Anchored(e) && 0 < e.amount
    ensures CountsTowardCommitted(e.status) ==>
              (Contribution(Some(ToSnapshot(e)), key, members, zone) == PipelineSpend(e, key, zone) <==>
                 WellPlaced(e, key, zone))
    ensures !CountsTowardCommitted(e.status) ==>
              Contribution(Some(ToSnapshot(e)), key, members, zone) == PipelineSpend(e, key, zone) == 0
    ensures CountsTowardCommitted(e.status) || e.status == Reimbursed ==>
              ((BookedOn(ToSnapshot(e), members, zone) == Some(key) <==> InRange(e, key, zone)) <==>
                 WellPlaced(e, key, zone))
  {
  }

  /** The transitions the services pass to the ledger. */
  predicate LedgerTransition(before: Expense, after: Expense) {
    || (before.status == Approved && after == before.(status := Reimbursed))
    || (before.status != Reimbursed && after.status != Reimbursed)
  }

  /** What every row and every expense of a consistent state satisfies. */
  predicate AllAnchored(expenses: map<Id, Expense>) {
    forall i :: i in expenses ==> 0 < expenses[i].amount && Anchored(expenses[i])
  }

  lemma SpendIsPartOfSum(expenses: map<Id, Expense>, id: Id, key: Key, zone: FixedZone)
    requires AllAnchored(expenses) && id in expenses
    ensures 0 <= PipelineSpend(expenses[id], key, zone) <= SumPipeline(expenses, key, zone)
    ensures 0 <= SumReimbursed(expenses, key, zone)
  {
    SumsAreNonNegative(expenses, key, zone);
    TotalNonNegative(PipelineColumn(expenses, key, zone));
    assert id in PipelineColumn(expenses, key, zone);
  }

  /** What the ledger books for an expense on a row, less what the sums count there. */
  function Drift(e: Expense, key: Key, members: Members, zone: FixedZone): int {
    Contribution(Some(ToSnapshot(e)), key, members, zone) - PipelineSpend(e, key, zone)
  }

  /** A reimbursement keeps agreement exactly if the sums count the expense where it is booked. */
  lemma ReimbursementKeepsAgreement(row: BudgetRow, expenses: map<Id, Expense>, id: Id, after: Expense,
                                    key: Key, members: Members, zone: FixedZone)
    requires AllAnchored(expenses) && id in expenses && row.isActive
    requires expenses[id].status == Approved && after == expenses[id].(status := Reimbursed)
    requires Agrees(row, expenses, key, zone)
    ensures var next := if BookedOn(ToSnapshot(after), members, zone) == Some(key)
                        then AddReimbursed(row, after.amount) else row;
            && (Agrees(next, expenses[id := after], key, zone) <==> WellPlaced(expenses[id], key, zone))
            && next.committed == row.committed
  {
    PipelineAfterPut(expenses, id, after, key, zone);
    ReimbursedAfterPut(expenses, id, after, key, zone);
    ContributionIsSpend(after, key, members, zone);
    SumsAreNonNegative(expenses, key, zone);
  }

  /** Any other update keeps agreement exactly if the drift of the expense stays the same, or if the
      clamp at zero takes effect and the sums end at zero as well. */
  lemma DriftDecidesAgreement(row: BudgetRow, expenses: map<Id, Expense>, id: Id, after: Expense,
                              key: Key, members: Members, zone: FixedZone)
    requires AllAnchored(expenses) && id in expenses && row.isActive
    requires 0 < after.amount && Anchored(after) && expenses[id].status != Reimbursed && after.status != Reimbursed
    requires Agrees(row, expenses, key, zone)
    ensures var delta := Contribution(Some(ToSnapshot(after)), key, members, zone)
                         - Contribution(Some(ToSnapshot(expenses[id])), key, members, zone);
            Agrees(AddCommitted(row, delta), expenses[id := after], key, zone) <==>
              if 0 <= row.committed + delta
              then Drift(after, key, members, zone) == Drift(expenses[id], key, members, zone)
              else row.committed + PipelineSpend(after, key, zone) == PipelineSpend(expenses[id], key, zone)
  {
    PipelineAfterPut(expenses, id, after, key, zone);
    ReimbursedAfterPut(expenses, id, after, key, zone);
    SumsAreNonNegative(expenses, key, zone);
  }

  /** When the update of an agreeing row ends in agreement, as a condition on the expense before and
      after. */
  predicate AgreementKept(row: BudgetRow, before: Expense, after: Expense, key: Key, members: Members,
                          zone: FixedZone) {
    if after.status == Reimbursed then WellPlaced(before, key, zone)
    else if !CountsTowardCommitted(before.status) then WellPlaced(after, key, zone)
    else if !CountsTowardCommitted(after.status) then
      || WellPlaced(before, key, zone)
      || (BookedOn(ToSnapshot(before), members, zone) == Some(key) && row.committed == 0)
    else
      var earlier, later := ToSnapshot(before), ToSnapshot(after);
      var delta := Contribution(Some(later), key, members, zone) - Contribution(Some(earlier), key, members, zone);
      if 0 <= row.committed + delta then Drift(after, key, members, zone) == Drift(before, key, members, zone)
      else row.committed + PipelineSpend(after, key, zone) == PipelineSpend(before, key, zone)
  }

  /** An approval leaves agreement alone wherever the expense is placed. */
  lemma StatusChangeKeepsAgreement(row: BudgetRow, before: Expense, status: Status, key: Key, members: Members,
                                   zone: FixedZone)
    requires CountsTowardCommitted(before.status) && CountsTowardCommitted(status) && 0 <= row.committed
    ensures AgreementKept(row, before, before.(status := status), key, members, zone)
  {
  }

  lemma OtherChangeKeepsAgreement(row: BudgetRow, expenses: map<Id, Expense>, id: Id, after: Expense,
                                  key: Key, members: Members, zone: FixedZone)
    requires AllAnchored(expenses) && id in expenses && row.isActive
    requires 0 < after.amount && Anchored(after) && expenses[id].status != Reimbursed && after.status != Reimbursed
    requires Agrees(row, expenses, key, zone)
    ensures var delta := Contribution(Some(ToSnapshot(after)), key, members, zone)
                         - Contribution(Some(ToSnapshot(expenses[id])), key, members, zone);
            && (WellPlaced(expenses[id], key, zone) ==> AddCommitted(row, delta).committed == row.committed + delta)
            && (Agrees(AddCommitted(row, delta), expenses[id := after], key, zone) <==>
                  AgreementKept(row, expenses[id], after, key, members, zone))
  {
    DriftDecidesAgreement(row, expenses, id, after, key, members, zone);
    ContributionIsSpend(expenses[id], key, members, zone);
    ContributionIsSpend(after, key, members, zone);
    SpendIsPartOfSum(expenses, id, key, zone);
  }

  /** The incremental update of an agreeing row ends in agreement exactly under the condition above.
      For an expense that the sums count where it is booked, the clamp never takes effect, and the
      condition is that they still do. */
  lemma SyncKeepsAgreement(rows: map<Key, BudgetRow>, expenses: map<Id, Expense>, id: Id, after: Expense,
                           key: Key, members: Members, zone: FixedZone)
    requires id in expenses && key in rows && rows[key].isActive && AllAnchored(expenses)
    requires 0 < after.amount && Anchored(after) && LedgerTransition(expenses[id], after)
    requires Agrees(rows[key], expenses, key, zone)
    ensures var before, next := Some(ToSnapshot(expenses[id])), Some(ToSnapshot(after));
            var row := Synced(rows, before, next, members, zone)[key];
            && (Agrees(row, expenses[id := after], key, zone) <==>
                  AgreementKept(rows[key], expenses[id], after, key, members, zone))
            && (WellPlaced(expenses[id], key, zone) ==>
                  row.committed == rows[key].committed + if IsReimbursement(before, next) then 0
                                                         else Contribution(next, key, members, zone)
                                                              - Contribution(before, key, members, zone))
  {
    SyncedRow(rows, Some(ToSnapshot(expenses[id])), Some(ToSnapshot(after)), key, members, zone);
    if after.status == Reimbursed {
      ReimbursementKeepsAgreement(rows[key], expenses, id, after, key, members, zone);
    } else {
      OtherChangeKeepsAgreement(rows[key], expenses, id, after, key, members, zone);
    }
  }

  lemma PlacedAgreementKept(row: BudgetRow, expenses: map<Id, Expense>, id: Id, after: Expense, key: Key,
                            members: Members, zone: FixedZone)
    requires AllAnchored(expenses) && id in expenses && Agrees(row, expenses, key, zone)
    requires 0 < after.amount && Anchored(after) && LedgerTransition(expenses[id], after)
    requires WellPlaced(expenses[id], key, zone)
    ensures AgreementKept(row, expenses[id], after, key, members, zone) <==> WellPlaced(after, key, zone)
  {
    ContributionIsSpend(expenses[id], key, members, zone);
    ContributionIsSpend(after, key, members, zone);
    SpendIsPartOfSum(expenses, id, key, zone);
  }

  // ---------- The table ----------

  /** The department_budgets table; each method is one statement or one transaction-local step. */
  class BudgetTable {
    var rows: map<Key, BudgetRow>

    constructor ()
      ensures rows == map[]
    {
      rows := map[];
    }

    method ApplyCommittedAmountDelta(departmentId: Id, year: int, delta: int)
      modifies this
      ensures rows == map k | k in old(rows) ::
                if k == (departmentId, year) then AddCommitted(old(rows)[k], delta) else old(rows)[k]
    {
      if delta == 0 {
        return;
      }
      var key := (departmentId, year);
      if key in rows && rows[key].isActive {
        rows := rows[key := rows[key].(committed := Clamp(rows[key].committed + delta))];
      }
    }

    method ApplyReimbursedAmountDelta(departmentId: Id, year: int, delta: int)
      modifies this
      ensures rows == map k | k in old(rows) ::
                if k == (departmentId, year) then AddReimbursed(old(rows)[k], delta) else old(rows)[k]
    {
      if delta == 0 {
        return;
      }
      var key := (departmentId, year);
      if key in rows && rows[key].isActive {
        rows := rows[key := rows[key].(reimbursed := Clamp(rows[key].reimbursed + delta))];
      }
    }

    /** One side of a transition, added into the map of deltas; `order` is the map's insertion order. */
    method Accumulate(deltas: map<Key, int>, order: seq<Key>, snapshot: Snapshot, sign: int,
                      members: Members, zone: FixedZone)
      returns (deltas': map<Key, int>, order': seq<Key>)
      requires sign == 1 || sign == -1
      requires ListsKeys(order, deltas)
      ensures ListsKeys(order', deltas')
      ensures forall k :: DeltaAt(deltas', k) ==
                          DeltaAt(deltas, k) + sign * Contribution(Some(snapshot), k, members, zone)
    {
      deltas', order' := deltas, order;
      if snapshot.submittedAt.None? || !CountsTowardCommitted(snapshot.status) {
        return;
      }
      var department := ResolveDepartment(snapshot.userId, snapshot.departmentId, members);
      if department.None? {
        return;
      }
      var key := (department.value, ResolveBudgetYear(snapshot.submittedAt.value, zone));
      if key !in deltas {
        order' := order + [key];
      }
      deltas' := deltas[key := DeltaAt(deltas, key) + sign * snapshot.amount];
    }

    method SyncReimbursedAmountForExpense(snapshot: Snapshot, members: Members, zone: FixedZone)
      modifies this
      ensures rows == map k | k in old(rows) ::
                if BookedOn(snapshot, members, zone) == Some(k) then AddReimbursed(old(rows)[k], snapshot.amount)
                else old(rows)[k]
    {
      var key := BookedOn(snapshot, members, zone);
      if key.Some? {
        ApplyReimbursedAmountDelta(key.value.0, key.value.1, snapshot.amount);
      }
    }

    method SyncCommittedAmountForExpenseTransition(before: Option<Snapshot>, after: Option<Snapshot>,
                                                   members: Members, zone: FixedZone)
      modifies this
      ensures rows == Synced(old(rows), before, after, members, zone)
    {
      if IsReimbursement(before, after) {
        SyncReimbursedAmountForExpense(after.value, members, zone);
        return;
      }
      if !AttributionChanged(before, after) {
        ShortcutLeavesRows(rows, before, after, members, zone);
        return;
      }
      var deltas, order := CollectDeltas(before, after, members, zone);
      ghost var start := rows;
      ApplyDeltas(deltas, order);
      DeltasAreSync(start, deltas, before, after, members, zone);
    }

    method CollectDeltas(before: Option<Snapshot>, after: Option<Snapshot>, members: Members, zone: FixedZone)
      returns (deltas: map<Key, int>, order: seq<Key>)
      ensures ListsKeys(order, deltas)
      ensures forall k :: DeltaAt(deltas, k) ==
                          Contribution(after, k, members, zone) - Contribution(before, k, members, zone)
    {
      deltas, order := map[], [];
      if before.Some? {
        deltas, order := Accumulate(deltas, order, before.value, -1, members, zone);
      }
      assert forall k :: DeltaAt(deltas, k) == -Contribution(before, k, members, zone);
      if after.Some? {
        deltas, order := Accumulate(deltas, order, after.value, 1, members, zone);
      }
    }

    method ApplyDeltas(deltas: map<Key, int>, order: seq<Key>)
      requires ListsKeys(order, deltas)
      modifies this
      ensures rows == map k | k in old(rows) :: AddCommitted(old(rows)[k], DeltaAt(deltas, k))
    {
      for i := 0 to |order|
        invariant rows == map k | k in old(rows) ::
                    if k in order[..i] then AddCommitted(old(rows)[k], DeltaAt(deltas, k)) else old(rows)[k]
      {
        var key := order[i];
        if deltas[key] != 0 {
          ApplyCommittedAmountDelta(key.0, key.1, deltas[key]);
        }
        assert order[..i + 1] == order[..i] + [key];
      }
      assert order[..|order|] == order;
    }

    /** Recalculation also reaches inactive rows. */
    method RecalculateCommitted(expenses: map<Id, Expense>, departmentId: Id, year: int, zone: FixedZone)
      modifies this
      ensures rows == Recalculated(old(rows), (departmentId, year), expenses, zone, true)
    {
      var key := (departmentId, year);
      var pipeline := SumPipeline(expenses, key, zone);
      var reimbursed := SumReimbursed(expenses, key, zone);
      if key in rows {
        rows := rows[key := rows[key].(committed := pipeline + reimbursed)];
      }
    }

    method RecalculateReimbursed(expenses: map<Id, Expense>, departmentId: Id, year: int, zone: FixedZone)
      modifies this
      ensures rows == Recalculated(old(rows), (departmentId, year), expenses, zone, false)
    {
      var key := (departmentId, year);
      var reimbursed := SumReimbursed(expenses, key, zone);
      if key in rows {
        rows := rows[key := rows[key].(reimbursed := reimbursed)];
      }
    }
  }

  function DeltaAt(deltas: map<Key, int>, k: Key): int {
    if k in deltas then deltas[k] else 0
  }

  ghost predicate ListsKeys(order: seq<Key>, deltas: map<Key, int>) {
    && (forall k :: k in order <==> k in deltas)
    && (forall i, j :: 0 <= i < j < |order| ==> order[i] != order[j])
  }

  /** The table after one recalculation; `whole` selects the committed column. */
  function Recalculated(rows: map<Key, BudgetRow>, key: Key, expenses: map<Id, Expense>, zone: FixedZone,
                        whole: bool): map<Key, BudgetRow>
  {
    if key !in rows then rows
    else if whole then
      rows[key := rows[key].(committed := SumPipeline(expenses, key, zone) + SumReimbursed(expenses, key, zone))]
    else
      rows[key := rows[key].(reimbursed := SumReimbursed(expenses, key, zone))]
  }

  /** The committed amounts of some departments in some years, recomputed. */
  function RecalculatedOver(rows: map<Key, BudgetRow>, expenses: map<Id, Expense>, departments: set<Id>,
                            years: set<int>,
                            zone: FixedZone): map<Key, BudgetRow>
  {
    map k | k in rows ::
      if k.0 in departments && k.1 in years
      then rows[k].(committed := SumPipeline(expenses, k, zone) + SumReimbursed(expenses, k, zone))
      else rows[k]
  }

  lemma NothingRecalculated(rows: map<Key, BudgetRow>, expenses: map<Id, Expense>, departments: set<Id>,
                            years: set<int>,
                            zone: FixedZone)
    requires departments == {} || years == {}
    ensures RecalculatedOver(rows, expenses, departments, years, zone) == rows
  {
  }

  lemma OneMoreYear(rows: map<Key, BudgetRow>, expenses: map<Id, Expense>, d: Id, years: set<int>, year: int,
                    zone: FixedZone)
    ensures Recalculated(RecalculatedOver(rows, expenses, {d}, years, zone), (d, year), expenses, zone, true) ==
            RecalculatedOver(rows, expenses, {d}, years + {year}, zone)
  {
    var before := RecalculatedOver(rows, expenses, {d}, years, zone);
    forall k | k in rows
      ensures Recalculated(before, (d, year), expenses, zone, true)[k] ==
              RecalculatedOver(rows, expenses, {d}, years + {year}, zone)[k]
    {
      if k == (d, year) { assert k in before; }
    }
  }

  lemma OneMoreDepartment(rows: map<Key, BudgetRow>, expenses: map<Id, Expense>, departments: set<Id>, d: Id,
                          years: set<int>,
                          zone: FixedZone)
    ensures RecalculatedOver(RecalculatedOver(rows, expenses, departments, years, zone), expenses, {d}, years, zone) ==
            RecalculatedOver(rows, expenses, departments + {d}, years, zone)
  {
  }

  /** The ids that a sequence lists. */
  function AsSet(ids: seq<Id>): set<Id> {
    set d | d in ids
  }

  function Listed(department: Option<Id>): seq<Id> {
    if department.Some? then [department.value] else []
  }

  /** The two recalculations together establish agreement, whatever the row held before; each one
      alone keeps it. */
  lemma RecalculationAgrees(rows: map<Key, BudgetRow>, key: Key, expenses: map<Id, Expense>, zone: FixedZone)
    requires key in rows
    ensures var once := Recalculated(rows, key, expenses, zone, true);
            var twice := Recalculated(once, key, expenses, zone, false);
            && Agrees(twice[key], expenses, key, zone)
            && twice[key] == rows[key].(committed := twice[key].committed, reimbursed := twice[key].reimbursed)
    ensures forall whole :: Agrees(rows[key], expenses, key, zone) ==>
              Recalculated(rows, key, expenses, zone, whole) == rows
  {
    forall whole | Agrees(rows[key], expenses, key, zone)
      ensures Recalculated(rows, key, expenses, zone, whole) == rows
    {
      assert rows[key := rows[key]] == rows;
    }
  }
}
