/** The concurrency pool, and the reconciliation of all budgets that runs on it. The slots of a
    pool run on one thread and interleave at their await points, in any order. */
module WorkerPool {
  import opened Domain
  import opened BudgetPeriod
  import opened BudgetLedger

  /** Where a slot waits: before its first item, before one of the two recalculations of the item
      it holds, after its loop, or rejected while it held an item. */
  datatype Slot =
    | Unstarted
    | BeforeCommitted(item: nat)
    | BeforeReimbursed(item: nat)
    | Ended
    | Thrown(item: nat)

  /** Shared state: `keys` are the budgets to reconcile; `handed` records which item went out, in order. */
  datatype Pool = Pool(
    keys: seq<Key>,
    nextIndex: nat,
    slots: seq<Slot>,
    handed: seq<nat>,
    rows: map<Key, BudgetRow>)

  function PoolSize(concurrency: int, items: nat): nat {
    var wanted := if concurrency < 1 then 1 else concurrency;
    if wanted < items then wanted else items
  }

  /** There are as many slots as asked for, but at least one, and no more than items. */
  lemma PoolSizeSpec(concurrency: int, items: nat)
    ensures PoolSize(concurrency, items) <= items
    ensures concurrency <= 1 && 0 < items ==> PoolSize(concurrency, items) == 1
    ensures 1 <= concurrency <= items ==> PoolSize(concurrency, items) == concurrency
    ensures 1 <= concurrency && items <= concurrency ==> PoolSize(concurrency, items) == items
  {
  }

  function Start(keys: seq<Key>, concurrency: int, rows: map<Key, BudgetRow>): Pool {
    Pool(keys, 0, seq(PoolSize(concurrency, |keys|), i => Unstarted), [], rows)
  }

  /** The synchronous part of a slot's loop: test, take, increment. */
  function Take(p: Pool, j: nat): Pool
    requires j < |p.slots|
  {
    if p.nextIndex < |p.keys| then
      p.(slots := p.slots[j := BeforeCommitted(p.nextIndex)],
         nextIndex := p.nextIndex + 1,
         handed := p.handed + [p.nextIndex])
    else p.(slots := p.slots[j := Ended])
  }

  /** One await of slot `j` settles; `fails` when the recalculation it waits for throws. */
  function Resume(p: Pool, j: nat, fails: bool, expenses: map<Id, Expense>, zone: FixedZone): Pool
    requires Bounded(p)
  {
    if |p.slots| <= j then p
    else
      match p.slots[j]
      case Unstarted => Take(p, j)
      case BeforeCommitted(i) =>
        if fails then p.(slots := p.slots[j := Thrown(i)])
        else p.(slots := p.slots[j := BeforeReimbursed(i)],
                rows := Recalculated(p.rows, p.keys[i], expenses, zone, true))
      case BeforeReimbursed(i) =>
        if fails then p.(slots := p.slots[j := Thrown(i)])
        else Take(p.(rows := Recalculated(p.rows, p.keys[i], expenses, zone, false)), j)
      case Ended => p
      case Thrown(_) => p
  }

  // ---------- The invariant ----------

  predicate Holds(s: Slot, i: nat) {
    s == BeforeCommitted(i) || s == BeforeReimbursed(i) || s == Thrown(i)
  }

  predicate Bounded(p: Pool) {
    && p.nextIndex <= |p.keys|
    && forall j :: 0 <= j < |p.slots| ==>
         match p.slots[j]
         case BeforeCommitted(i) => i < p.nextIndex
         case BeforeReimbursed(i) => i < p.nextIndex
         case Thrown(i) => i < p.nextIndex
         case Unstarted => true
         case Ended => p.nextIndex == |p.keys|
  }

  ghost predicate IsHeld(p: Pool, i: nat) {
    exists j :: 0 <= j < |p.slots| && Holds(p.slots[j], i)
  }

  predicate OneHolder(slots: seq<Slot>) {
    forall j, k :: 0 <= j < k < |slots| && HasItem(slots[j]) && HasItem(slots[k]) ==> slots[j].item != slots[k].item
  }

  predicate HasItem(s: Slot) {
    s.BeforeCommitted? || s.BeforeReimbursed? || s.Thrown?
  }

  /** How far the row of item `i` is. */
  ghost predicate RowSound(p: Pool, i: nat, start: map<Key, BudgetRow>, expenses: map<Id, Expense>, zone: FixedZone)
    requires i < |p.keys| && p.keys[i] in p.rows && p.keys[i] in start
  {
    var row := p.rows[p.keys[i]];
    var goal := Reconciled(start[p.keys[i]], p.keys[i], expenses, zone);
    && SameTerms(row, goal)
    && (BeforeReimbursed(i) in p.slots ==> row.committed == goal.committed)
    && (i < p.nextIndex && !IsHeld(p, i) ==> row == goal)
  }

  /** Items leave in order, no item is with two slots, and an item no slot holds any more has both
      its totals recalculated. Rows change only in those totals. */
  ghost predicate Sound(p: Pool, start: map<Key, BudgetRow>, expenses: map<Id, Expense>, zone: FixedZone) {
    && Bounded(p)
    && Distinct(p.keys)
    && p.handed == seq(p.nextIndex, i => i)
    && OneHolder(p.slots)
    && p.rows.Keys == start.Keys
    && (forall i :: 0 <= i < |p.keys| ==> p.keys[i] in start)
    && (forall i: nat :: i < |p.keys| ==> RowSound(p, i, start, expenses, zone))
    && (forall k :: k in start && k !in p.keys ==> p.rows[k] == start[k])
  }

  predicate SameTerms(a: BudgetRow, b: BudgetRow) {
    a.amountLimit == b.amountLimit && a.isActive == b.isActive
  }

  /** A row with both totals recomputed. */
  function Reconciled(row: BudgetRow, key: Key, expenses: map<Id, Expense>, zone: FixedZone): BudgetRow {
    row.(committed := SumPipeline(expenses, key, zone) + SumReimbursed(expenses, key, zone),
         reimbursed := SumReimbursed(expenses, key, zone))
  }

  lemma StartIsSound(keys: seq<Key>, concurrency: int, rows: map<Key, BudgetRow>, expenses: map<Id, Expense>,
                     zone: FixedZone)
    requires Distinct(keys) && forall i :: 0 <= i < |keys| ==> keys[i] in rows
    ensures Sound(Start(keys, concurrency, rows), rows, expenses, zone)
  {
  }

  /** What replacing one slot does to who holds what. */
  lemma HeldAfterUpdate(p: Pool, q: Pool, j: nat, i: nat)
    requires j < |p.slots| == |q.slots| && q.slots == p.slots[j := q.slots[j]] && OneHolder(p.slots)
    ensures IsHeld(q, i) <==> Holds(q.slots[j], i) || (IsHeld(p, i) && !Holds(p.slots[j], i))
    ensures BeforeReimbursed(i) in q.slots <==>
            q.slots[j] == BeforeReimbursed(i) || (BeforeReimbursed(i) in p.slots && p.slots[j] != BeforeReimbursed(i))
  {
    if IsHeld(p, i) && !Holds(p.slots[j], i) {
      var k :| 0 <= k < |p.slots| && Holds(p.slots[k], i);
      assert Holds(q.slots[k], i);
    }
    if IsHeld(q, i) && !Holds(q.slots[j], i) {
      var k :| 0 <= k < |q.slots| && Holds(q.slots[k], i);
      assert Holds(p.slots[k], i) && k != j;
    }
    if BeforeReimbursed(i) in p.slots && p.slots[j] != BeforeReimbursed(i) {
      var k :| 0 <= k < |p.slots| && p.slots[k] == BeforeReimbursed(i);
      assert q.slots[k] == BeforeReimbursed(i);
    }
    if BeforeReimbursed(i) in q.slots && q.slots[j] != BeforeReimbursed(i) {
      var k :| 0 <= k < |q.slots| && q.slots[k] == BeforeReimbursed(i);
      assert p.slots[k] == BeforeReimbursed(i);
    }
  }

  lemma TakeKeepsSound(p: Pool, j: nat, start: map<Key, BudgetRow>, expenses: map<Id, Expense>, zone: FixedZone)
    requires j < |p.slots| && p.slots[j].Unstarted?
    requires Sound(p, start, expenses, zone)
    ensures Sound(Take(p, j), start, expenses, zone)
  {
    var q := Take(p, j);
    forall i: nat | i < |q.keys|
      ensures RowSound(q, i, start, expenses, zone)
    {
      assert RowSound(p, i, start, expenses, zone);
      HeldAfterUpdate(p, q, j, i);
    }
  }

  lemma RecalculationKeepsSound(p: Pool, j: nat, start: map<Key, BudgetRow>, expenses: map<Id, Expense>,
                                zone: FixedZone)
    requires Sound(p, start, expenses, zone) && j < |p.slots| && p.slots[j].BeforeCommitted?
    ensures Sound(Resume(p, j, false, expenses, zone), start, expenses, zone)
  {
    var q := Resume(p, j, false, expenses, zone);
    var item := p.slots[j].item;
    forall i: nat | i < |q.keys|
      ensures RowSound(q, i, start, expenses, zone)
    {
      assert RowSound(p, i, start, expenses, zone);
      HeldAfterUpdate(p, q, j, i);
      assert i != item ==> p.keys[i] != p.keys[item];
    }
  }

  /** The state between the second recalculation of an item and the next turn of its slot's loop. */
  function Freed(p: Pool, j: nat, expenses: map<Id, Expense>, zone: FixedZone): Pool
    requires Bounded(p) && j < |p.slots| && p.slots[j].BeforeReimbursed?
  {
    p.(rows := Recalculated(p.rows, p.keys[p.slots[j].item], expenses, zone, false), slots := p.slots[j := Unstarted])
  }

  lemma FreeingKeepsSound(p: Pool, j: nat, start: map<Key, BudgetRow>, expenses: map<Id, Expense>, zone: FixedZone)
    requires Sound(p, start, expenses, zone) && j < |p.slots| && p.slots[j].BeforeReimbursed?
    ensures Sound(Freed(p, j, expenses, zone), start, expenses, zone)
    ensures Resume(p, j, false, expenses, zone) == Take(Freed(p, j, expenses, zone), j)
  {
    var item := p.slots[j].item;
    var q := Freed(p, j, expenses, zone);
    forall i: nat | i < |q.keys|
      ensures RowSound(q, i, start, expenses, zone)
    {
      assert RowSound(p, i, start, expenses, zone);
      HeldAfterUpdate(p, q, j, i);
      assert i != item ==> p.keys[i] != p.keys[item];
    }
    var next := if p.nextIndex < |p.keys| then BeforeCommitted(p.nextIndex) else Ended;
    assert q.slots[j := next] == p.slots[j := next];
  }

  lemma FailureKeepsSound(p: Pool, j: nat, start: map<Key, BudgetRow>, expenses: map<Id, Expense>, zone: FixedZone)
    requires Sound(p, start, expenses, zone) && j < |p.slots|
    requires p.slots[j].BeforeCommitted? || p.slots[j].BeforeReimbursed?
    ensures Sound(Resume(p, j, true, expenses, zone), start, expenses, zone)
  {
    var q := Resume(p, j, true, expenses, zone);
    forall i: nat | i < |q.keys|
      ensures RowSound(q, i, start, expenses, zone)
    {
      assert RowSound(p, i, start, expenses, zone);
      HeldAfterUpdate(p, q, j, i);
    }
  }

  lemma ResumeKeepsSound(p: Pool, j: nat, fails: bool, start: map<Key, BudgetRow>, expenses: map<Id, Expense>,
                         zone: FixedZone)
    requires Sound(p, start, expenses, zone)
    ensures Sound(Resume(p, j, fails, expenses, zone), start, expenses, zone)
  {
    if j < |p.slots| {
      match p.slots[j]
      case Unstarted => TakeKeepsSound(p, j, start, expenses, zone);
      case BeforeCommitted(i) =>
        if fails { FailureKeepsSound(p, j, start, expenses, zone); }
        else { RecalculationKeepsSound(p, j, start, expenses, zone); }
      case BeforeReimbursed(i) =>
        if fails {
          FailureKeepsSound(p, j, start, expenses, zone);
        } else {
          FreeingKeepsSound(p, j, start, expenses, zone);
          TakeKeepsSound(Freed(p, j, expenses, zone), j, start, expenses, zone);
        }
      case _ =>
    }
  }

  // ---------- Schedules ----------

  datatype Turn = Turn(slot: nat, fails: bool)

  function RunPool(p: Pool, schedule: seq<Turn>, expenses: map<Id, Expense>, zone: FixedZone): (q: Pool)
    requires Bounded(p)
    ensures Bounded(q)
  {
    if schedule == [] then p
    else Resume(RunPool(p, schedule[..|schedule| - 1], expenses, zone), schedule[|schedule| - 1].slot,
                schedule[|schedule| - 1].fails, expenses, zone)
  }

  lemma {:induction false} SchedulesStaySound(p: Pool, schedule: seq<Turn>, start: map<Key, BudgetRow>,
                                              expenses: map<Id, Expense>, zone: FixedZone)
    requires Sound(p, start, expenses, zone)
    ensures Sound(RunPool(p, schedule, expenses, zone), start, expenses, zone)
    ensures RunPool(p, schedule, expenses, zone).keys == p.keys
    ensures |RunPool(p, schedule, expenses, zone).slots| == |p.slots|
  {
    if schedule != [] {
      var front := schedule[..|schedule| - 1];
      var last := schedule[|schedule| - 1];
      SchedulesStaySound(p, front, start, expenses, zone);
      ResumeKeepsSound(RunPool(p, front, expenses, zone), last.slot, last.fails, start, expenses, zone);
    }
  }

  /** A recalculation that throws ends its slot and changes nothing else; a settled slot does nothing. */
  lemma FailureStops(p: Pool, j: nat, expenses: map<Id, Expense>, zone: FixedZone)
    requires Bounded(p) && j < |p.slots|
    ensures p.slots[j].BeforeCommitted? || p.slots[j].BeforeReimbursed? ==>
              Resume(p, j, true, expenses, zone) == p.(slots := p.slots[j := Thrown(p.slots[j].item)])
    ensures p.slots[j].Ended? || p.slots[j].Thrown? ==> forall fails :: Resume(p, j, fails, expenses, zone) == p
  {
  }

  predicate AllSettled(p: Pool) {
    forall j :: 0 <= j < |p.slots| ==> p.slots[j].Ended? || p.slots[j].Thrown?
  }

  predicate AllEnded(p: Pool) {
    forall j :: 0 <= j < |p.slots| ==> p.slots[j].Ended?
  }

  /** Whatever the interleaving and the failures: once all slots have settled, a row was brought
      into agreement for every item handed out and not lost to a rejected slot; and if some slot
      ended normally, every item was handed out. */
  lemma SettledPool(keys: seq<Key>, concurrency: int, rows: map<Key, BudgetRow>, schedule: seq<Turn>,
                    expenses: map<Id, Expense>, zone: FixedZone)
    requires Distinct(keys) && forall i :: 0 <= i < |keys| ==> keys[i] in rows
    requires AllSettled(RunPool(Start(keys, concurrency, rows), schedule, expenses, zone))
    ensures var end := RunPool(Start(keys, concurrency, rows), schedule, expenses, zone);
            && end.nextIndex <= |keys| && end.rows.Keys == rows.Keys
            && (forall i :: 0 <= i < end.nextIndex && Thrown(i) !in end.slots ==>
                  Agrees(end.rows[keys[i]], expenses, keys[i], zone))
            && (Ended in end.slots ==> end.nextIndex == |keys|)
            && end.handed == seq(end.nextIndex, i => i)
  {
    var begin := Start(keys, concurrency, rows);
    StartIsSound(keys, concurrency, rows, expenses, zone);
    SchedulesStaySound(begin, schedule, rows, expenses, zone);
    var end := RunPool(begin, schedule, expenses, zone);
    forall i: nat | i < end.nextIndex && Thrown(i) !in end.slots
      ensures Agrees(end.rows[keys[i]], expenses, keys[i], zone)
    {
      assert RowSound(end, i, rows, expenses, zone);
      assert !IsHeld(end, i);
    }
  }

  /** Each turn of a slot that has not settled uses up some of this. */
  function Remaining(p: Pool): int {
    3 * (|p.keys| - p.nextIndex) + SlotWork(p.slots)
  }

  function SlotWork(slots: seq<Slot>): nat {
    if slots == [] then 0
    else SlotWork(slots[..|slots| - 1]) + Work(slots[|slots| - 1])
  }

  function Work(s: Slot): nat {
    match s
    case Unstarted => 1
    case BeforeCommitted(_) => 2
    case BeforeReimbursed(_) => 1
    case Ended => 0
    case Thrown(_) => 0
  }

  lemma {:induction false} SlotWorkAfterUpdate(slots: seq<Slot>, j: nat, s: Slot)
    requires j < |slots|
    ensures SlotWork(slots[j := s]) == SlotWork(slots) - Work(slots[j]) + Work(s)
  {
    var n := |slots| - 1;
    if j == n {
      assert slots[j := s][..n] == slots[..n];
    } else {
      SlotWorkAfterUpdate(slots[..n], j, s);
      assert slots[j := s][..n] == slots[..n][j := s];
    }
  }

  /** The pool settles: no slot can take more turns than there is work left. */
  lemma TurnsUseUpWork(p: Pool, j: nat, fails: bool, expenses: map<Id, Expense>, zone: FixedZone)
    requires Bounded(p) && j < |p.slots| && !p.slots[j].Ended? && !p.slots[j].Thrown?
    ensures 0 <= Remaining(Resume(p, j, fails, expenses, zone)) < Remaining(p)
  {
    var q := Resume(p, j, fails, expenses, zone);
    SlotWorkAfterUpdate(p.slots, j, q.slots[j]);
    assert q.slots == p.slots[j := q.slots[j]];
    assert q.nextIndex <= |q.keys|;
  }

  // ---------- Reconciliation ----------

  /** The active budgets, in the order the query returns them. */
  ghost predicate ListsActive(keys: seq<Key>, rows: map<Key, BudgetRow>) {
    Distinct(keys) && forall k :: k in keys <==> k in rows && rows[k].isActive
  }

  function ReconciledTable(rows: map<Key, BudgetRow>, expenses: map<Id, Expense>, zone: FixedZone): map<Key,
                           BudgetRow> {
    map k | k in rows :: if rows[k].isActive then Reconciled(rows[k], k, expenses, zone) else rows[k]
  }

  /** Once all slots have ended, every row is where reconciliation leaves it. */
  lemma EndedPoolRow(end: Pool, keys: seq<Key>, rows: map<Key, BudgetRow>, expenses: map<Id, Expense>, zone: FixedZone,
                     k: Key)
    requires Sound(end, rows, expenses, zone) && end.keys == keys && ListsActive(keys, rows) && k in rows
    requires AllEnded(end) && (keys != [] ==> end.nextIndex == |keys|)
    ensures k in end.rows && end.rows[k] == ReconciledTable(rows, expenses, zone)[k]
  {
    if rows[k].isActive {
      assert k in keys;
      var i: nat :| i < |keys| && keys[i] == k;
      assert RowSound(end, i, rows, expenses, zone);
      assert !IsHeld(end, i);
    } else {
      assert k !in end.keys;
    }
  }

  lemma EndedPoolRows(end: Pool, keys: seq<Key>, rows: map<Key, BudgetRow>, expenses: map<Id, Expense>, zone: FixedZone)
    requires Sound(end, rows, expenses, zone) && end.keys == keys && ListsActive(keys, rows)
    requires AllEnded(end) && (keys != [] ==> end.slots != [])
    ensures end.rows == ReconciledTable(rows, expenses, zone)
  {
    if keys != [] {
      assert end.slots[0].Ended?;
    }
    forall k | k in rows
      ensures end.rows[k] == ReconciledTable(rows, expenses, zone)[k]
    {
      EndedPoolRow(end, keys, rows, expenses, zone, k);
    }
  }

  lemma ReconciledAgrees(rows: map<Key, BudgetRow>, expenses: map<Id, Expense>, zone: FixedZone)
    ensures forall k :: k in rows && rows[k].isActive ==>
              Agrees(ReconciledTable(rows, expenses, zone)[k], expenses, k, zone)
  {
  }

  /** From any starting amounts and under any interleaving, reconciliation without failures ends
      in the one table in which every active row agrees with its sums. */
  lemma ReconciliationIsDeterministic(keys: seq<Key>, concurrency: int, rows: map<Key, BudgetRow>, schedule: seq<Turn>,
                                      expenses: map<Id, Expense>, zone: FixedZone)
    requires ListsActive(keys, rows)
    requires AllEnded(RunPool(Start(keys, concurrency, rows), schedule, expenses, zone))
    ensures RunPool(Start(keys, concurrency, rows), schedule, expenses, zone).rows ==
              ReconciledTable(rows, expenses, zone)
    ensures forall k :: k in rows && rows[k].isActive ==>
              Agrees(ReconciledTable(rows, expenses, zone)[k], expenses, k, zone)
  {
    var begin := Start(keys, concurrency, rows);
    StartIsSound(keys, concurrency, rows, expenses, zone);
    SchedulesStaySound(begin, schedule, rows, expenses, zone);
    EndedPoolRows(RunPool(begin, schedule, expenses, zone), keys, rows, expenses, zone);
    ReconciledAgrees(rows, expenses, zone);
  }

  /** A second reconciliation after the first one, with any pool size and under any interleaving,
      leaves the table as it found it. */
  lemma ReconcilingAgainChangesNothing(keys: seq<Key>, concurrency: int, rows: map<Key, BudgetRow>, schedule: seq<Turn>,
                                       again: seq<Key>, concurrency2: int, schedule2: seq<Turn>,
                                       expenses: map<Id, Expense>, zone: FixedZone)
    requires ListsActive(keys, rows)
    requires AllEnded(RunPool(Start(keys, concurrency, rows), schedule, expenses, zone))
    requires var mid := RunPool(Start(keys, concurrency, rows), schedule, expenses, zone).rows;
             ListsActive(again, mid) && AllEnded(RunPool(Start(again, concurrency2, mid), schedule2, expenses, zone))
    ensures var mid := RunPool(Start(keys, concurrency, rows), schedule, expenses, zone).rows;
            RunPool(Start(again, concurrency2, mid), schedule2, expenses, zone).rows == mid
  {
    var mid := RunPool(Start(keys, concurrency, rows), schedule, expenses, zone).rows;
    ReconciliationIsDeterministic(keys, concurrency, rows, schedule, expenses, zone);
    ReconciliationIsDeterministic(again, concurrency2, mid, schedule2, expenses, zone);
    ReconciledIsStable(rows, expenses, zone);
  }

  lemma ReconciledIsStable(rows: map<Key, BudgetRow>, expenses: map<Id, Expense>, zone: FixedZone)
    ensures var once := ReconciledTable(rows, expenses, zone);
            ReconciledTable(once, expenses, zone) == once
  {
  }

  // ---------- The running pool ----------

  /** The variables that the slots share, and the table their recalculations write. */
  class ReconciliationRun {
    const keys: seq<Key>
    const ledger: BudgetTable
    var nextIndex: nat
    var slots: seq<Slot>
    ghost var handed: seq<nat>

    constructor (keys: seq<Key>, concurrency: int, ledger: BudgetTable)
      ensures this.keys == keys && this.ledger == ledger
      ensures Current() == Start(keys, concurrency, ledger.rows)
    {
      this.keys, this.ledger := keys, ledger;
      nextIndex := 0;
      slots := seq(PoolSize(concurrency, |keys|), i => Unstarted);
      handed := [];
    }

    ghost function Current(): Pool
      reads this, ledger
    {
      Pool(keys, nextIndex, slots, handed, ledger.rows)
    }

    /** The loop head of slot `j`, up to the first await inside the worker. */
    method TakeNext(j: nat)
      requires j < |slots|
      modifies this
      ensures Current() == Take(old(Current()), j)
    {
      if nextIndex < |keys| {
        var currentIndex := nextIndex;
        nextIndex := nextIndex + 1;
        slots := slots[j := BeforeCommitted(currentIndex)];
        handed := handed + [currentIndex];
      } else {
        slots := slots[j := Ended];
      }
    }

    method Continue(j: nat, fails: bool, expenses: map<Id, Expense>, zone: FixedZone)
      requires Bounded(Current())
      modifies this, ledger
      ensures Current() == Resume(old(Current()), j, fails, expenses, zone)
    {
      if |slots| <= j {
        return;
      }
      match slots[j]
      case Unstarted =>
        TakeNext(j);
      case BeforeCommitted(i) =>
        if fails {
          slots := slots[j := Thrown(i)];
        } else {
          ledger.RecalculateCommitted(expenses, keys[i].0, keys[i].1, zone);
          slots := slots[j := BeforeReimbursed(i)];
        }
      case BeforeReimbursed(i) =>
        if fails {
          slots := slots[j := Thrown(i)];
        } else {
          ledger.RecalculateReimbursed(expenses, keys[i].0, keys[i].1, zone);
          TakeNext(j);
        }
      case Ended =>
      case Thrown(_) =>
    }
  }
}
