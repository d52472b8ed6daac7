/** Bulk approval, rejection and reimbursement: one transaction per expense, in the order given,
    with every failure collected and none of them stopping the rest. */
module BulkActions {
  import opened Domain
  import opened BudgetLedger
  import opened ApprovalRouting
  import opened ApprovalAccess
  import opened ExpenseLifecycle
  import opened ExpenseInvariants
  import opened ExpenseStore

  datatype BulkResult = BulkResult(succeeded: seq<Id>, failed: seq<(Id, Error)>)

  /** What is asked of each expense. */
  datatype Command =
    | BulkApprove(hasComment: bool, acknowledged: bool)
    | BulkReject(hasComment: bool)
    | BulkReimburse

  function Attempt(c: Config, s: State, auth: AuthUser, cmd: Command, id: Id, now: int): (r: Result<Effect>)
    ensures r.Ok? ==> r.value.id == id && id in s.expenses
  {
    match cmd
    case BulkApprove(hasComment, acknowledged) => ApproveTx(c, s, auth, id, hasComment, acknowledged, now)
    case BulkReject(hasComment) => RejectTx(s, auth, id, hasComment, now)
    case BulkReimburse => ReimburseTx(s, auth, id)
  }

  /** What a command makes of an expense. */
  lemma CommandOutcome(c: Config, s: State, auth: AuthUser, cmd: Command, id: Id, now: int)
    requires Attempt(c, s, auth, cmd, id, now).Ok?
    ensures var status := Attempt(c, s, auth, cmd, id, now).value.after.status;
            match cmd
            case BulkApprove(_, _) => status == Approved || status == UnderReview
            case BulkReject(hasComment) => status == Rejected && hasComment
            case BulkReimburse => status == Reimbursed
  {
  }

  // ---------- One after the other ----------

  function StateAfter(c: Config, s: State, auth: AuthUser, cmd: Command, ids: seq<Id>, now: int): State {
    if ids == [] then s
    else
      var mid := StateAfter(c, s, auth, cmd, ids[..|ids| - 1], now);
      match Attempt(c, mid, auth, cmd, ids[|ids| - 1], now)
      case Ok(f) => Commit(c, mid, f)
      case Err(_) => mid
  }

  function ResultOf(c: Config, s: State, auth: AuthUser, cmd: Command, ids: seq<Id>, now: int): BulkResult {
    if ids == [] then BulkResult([], [])
    else
      var front := ResultOf(c, s, auth, cmd, ids[..|ids| - 1], now);
      var id := ids[|ids| - 1];
      match Attempt(c, StateAfter(c, s, auth, cmd, ids[..|ids| - 1], now), auth, cmd, id, now)
      case Ok(_) => front.(succeeded := front.succeeded + [id])
      case Err(error) => front.(failed := front.failed + [(id, error)])
  }

  // ---------- All at once ----------

  /** Approving moves nothing on the ledger: the amount was counted before and still is. */
  lemma ApprovalLeavesLedger(c: Config, s: State, auth: AuthUser, id: Id, hasComment: bool, acknowledged: bool,
                             now: int)
    requires ApproveTx(c, s, auth, id, hasComment, acknowledged, now).Ok?
    ensures Commit(c, s, ApproveTx(c, s, auth, id, hasComment, acknowledged, now).value).budgets == s.budgets
  {
    var f := ApproveTx(c, s, auth, id, hasComment, acknowledged, now).value;
    assert IsPending(s.expenses[id].status);
    forall key | key in s.budgets
      ensures Contribution(Some(ToSnapshot(f.after)), key, MembersOf(s.users), c.zone) ==
              Contribution(Some(ToSnapshot(s.expenses[id])), key, MembersOf(s.users), c.zone)
    {
    }
  }

  /** What answers a command on `id`. */
  ghost predicate SameView(s: State, next: State, id: Id) {
    && (id in next.expenses <==> id in s.expenses)
    && (id in s.expenses ==> next.expenses[id] == s.expenses[id])
    && DecisionsOn(next, id) == DecisionsOn(s, id)
    && next.levels == s.levels && next.departments == s.departments
    && next.users == s.users && next.delegations == s.delegations
  }

  lemma ViewDecidesStage(s: State, next: State, auth: AuthUser, id: Id, now: int)
    requires SameView(s, next, id)
    ensures StageToDecide(next, auth, id, now) == StageToDecide(s, auth, id, now)
  {
    if id in s.expenses {
      assert Required(next, s.expenses[id]) == Required(s, s.expenses[id]);
    }
  }

  lemma ViewDecidesObjection(c: Config, s: State, next: State, e: Expense, stage: Level, hasComment: bool,
                             acknowledged: bool, now: int)
    requires next.budgets == s.budgets && next.departments == s.departments
    ensures OverBudgetObjection(c, next, e, stage, hasComment, acknowledged, now) ==
            OverBudgetObjection(c, s, e, stage, hasComment, acknowledged, now)
  {
  }

  lemma ViewDecidesAnswer(c: Config, s: State, next: State, auth: AuthUser, cmd: Command, id: Id, now: int)
    requires SameView(s, next, id) && (cmd.BulkApprove? ==> next.budgets == s.budgets)
    ensures Attempt(c, next, auth, cmd, id, now) == Attempt(c, s, auth, cmd, id, now)
  {
    if !cmd.BulkReimburse? {
      ViewDecidesStage(s, next, auth, id, now);
      var stage := StageToDecide(s, auth, id, now);
      if stage.Ok? && cmd.BulkApprove? {
        ViewDecidesObjection(c, s, next, s.expenses[id], stage.value, cmd.hasComment, cmd.acknowledged, now);
        assert Required(next, s.expenses[id]) == Required(s, s.expenses[id]);
      }
    }
  }

  lemma CommitKeepsView(c: Config, s: State, f: Effect, other: Id)
    requires f.id in s.expenses && other != f.id
    ensures SameView(s, Commit(c, s, f), other)
  {
    ReadBack(s.decisions, f.id, f.decisions, other);
  }

  /** Commands on other expenses leave the view of `id`, and approvals leave the ledger. */
  lemma {:induction false} OthersKeepView(c: Config, s: State, auth: AuthUser, cmd: Command, ids: seq<Id>, now: int,
                                          id: Id)
    requires id !in ids
    ensures SameView(s, StateAfter(c, s, auth, cmd, ids, now), id)
    ensures cmd.BulkApprove? ==> StateAfter(c, s, auth, cmd, ids, now).budgets == s.budgets
  {
    if ids != [] {
      var front, last := ids[..|ids| - 1], ids[|ids| - 1];
      OthersKeepView(c, s, auth, cmd, front, now, id);
      var mid := StateAfter(c, s, auth, cmd, front, now);
      match Attempt(c, mid, auth, cmd, last, now)
      case Ok(f) =>
        CommitKeepsView(c, mid, f, id);
        if cmd.BulkApprove? { ApprovalLeavesLedger(c, mid, auth, last, cmd.hasComment, cmd.acknowledged, now); }
      case Err(_) =>
    }
  }

  /** How the expense `id` comes out of a bulk command that started in `s`. */
  ghost predicate EndsAsAnswered(s: State, end: State, result: BulkResult, id: Id, answer: Result<Effect>) {
    match answer
    case Ok(f) =>
      && id in result.succeeded
      && id in end.expenses && end.expenses[id] == f.after && DecisionsOn(end, id) == f.decisions
    case Err(error) =>
      && id !in result.succeeded && (id, error) in result.failed
      && SameView(s, end, id)
  }

  lemma LastIsAnswered(c: Config, s: State, auth: AuthUser, cmd: Command, ids: seq<Id>, now: int)
    requires ids != [] && ids[|ids| - 1] !in ids[..|ids| - 1]
    ensures var id := ids[|ids| - 1];
            EndsAsAnswered(s, StateAfter(c, s, auth, cmd, ids, now), ResultOf(c, s, auth, cmd, ids, now), id,
                           Attempt(c, s, auth, cmd, id, now))
  {
    var front, id := ids[..|ids| - 1], ids[|ids| - 1];
    var mid := StateAfter(c, s, auth, cmd, front, now);
    ResultNamesGiven(c, s, auth, cmd, front, now);
    OthersKeepView(c, s, auth, cmd, front, now, id);
    ViewDecidesAnswer(c, s, mid, auth, cmd, id, now);
    if Attempt(c, s, auth, cmd, id, now).Ok? {
      ReadBack(mid.decisions, id, Attempt(c, s, auth, cmd, id, now).value.decisions, id);
    }
  }

  /** The order does not matter: each expense of a bulk command is answered as if it had been the
      only one, and ends as that answer says. */
  lemma {:induction false} BulkAnswersEachAlone(c: Config, s: State, auth: AuthUser, cmd: Command, ids: seq<Id>,
                                                now: int, id: Id)
    requires Distinct(ids) && id in ids
    ensures EndsAsAnswered(s, StateAfter(c, s, auth, cmd, ids, now), ResultOf(c, s, auth, cmd, ids, now), id,
                           Attempt(c, s, auth, cmd, id, now))
  {
    var front, last := ids[..|ids| - 1], ids[|ids| - 1];
    if last == id {
      LastIsAnswered(c, s, auth, cmd, ids, now);
    } else {
      assert id in front;
      BulkAnswersEachAlone(c, s, auth, cmd, front, now, id);
      var mid := StateAfter(c, s, auth, cmd, front, now);
      if Attempt(c, mid, auth, cmd, last, now).Ok? {
        CommitKeepsView(c, mid, Attempt(c, mid, auth, cmd, last, now).value, id);
      }
    }
  }

  lemma {:induction false} ResultNamesGiven(c: Config, s: State, auth: AuthUser, cmd: Command, ids: seq<Id>, now: int)
    ensures var r := ResultOf(c, s, auth, cmd, ids, now);
            && (forall id :: id in r.succeeded ==> id in ids)
            && |r.succeeded| + |r.failed| == |ids|
  {
    if ids != [] {
      ResultNamesGiven(c, s, auth, cmd, ids[..|ids| - 1], now);
    }
  }

  lemma {:induction false} KeepsExpenseIds(c: Config, s: State, auth: AuthUser, cmd: Command, ids: seq<Id>, now: int)
    ensures StateAfter(c, s, auth, cmd, ids, now).expenses.Keys == s.expenses.Keys
  {
    if ids != [] {
      KeepsExpenseIds(c, s, auth, cmd, ids[..|ids| - 1], now);
    }
  }

  // ---------- The services ----------

  /** Every reference once, in order of first occurrence. */
  function Unique(ids: seq<Id>): seq<Id> {
    if ids == [] then []
    else
      var front := Unique(ids[..|ids| - 1]);
      if ids[|ids| - 1] in front then front else front + [ids[|ids| - 1]]
  }

  lemma {:induction false} UniqueSpec(ids: seq<Id>)
    ensures Distinct(Unique(ids)) && forall id :: id in Unique(ids) <==> id in ids
  {
    if ids != [] {
      UniqueSpec(ids[..|ids| - 1]);
      assert ids == ids[..|ids| - 1] + [ids[|ids| - 1]];
    }
  }

  method PerformOne(store: Store, auth: AuthUser, cmd: Command, id: Id, now: int) returns (thrown: Option<Error>)
    modifies store, store.ledger
    ensures Committed(store.config, old(store.Current()),
                      Attempt(store.config, old(store.Current()), auth, cmd, id, now),
                      thrown, store.Current())
  {
    match cmd
    case BulkApprove(hasComment, acknowledged) => thrown := store.Approve(auth, id, hasComment, acknowledged, now);
    case BulkReject(hasComment) => thrown := store.Reject(auth, id, hasComment, now);
    case BulkReimburse => thrown := store.Reimburse(auth, id);
  }

  method PerformAll(store: Store, auth: AuthUser, cmd: Command, ids: seq<Id>, now: int) returns (result: BulkResult)
    modifies store, store.ledger
    ensures store.Current() == StateAfter(store.config, old(store.Current()), auth, cmd, ids, now)
    ensures result == ResultOf(store.config, old(store.Current()), auth, cmd, ids, now)
  {
    var succeeded, failed := [], [];
    ghost var start := store.Current();
    for i := 0 to |ids|
      invariant store.Current() == StateAfter(store.config, start, auth, cmd, ids[..i], now)
      invariant BulkResult(succeeded, failed) == ResultOf(store.config, start, auth, cmd, ids[..i], now)
    {
      assert ids[..i + 1][..i] == ids[..i];
      var thrown := PerformOne(store, auth, cmd, ids[i], now);
      if thrown.None? {
        succeeded := succeeded + [ids[i]];
      } else {
        failed := failed + [(ids[i], thrown.value)];
      }
    }
    assert ids[..|ids|] == ids;
    return BulkResult(succeeded, failed);
  }

  method ReimburseAll(store: Store, auth: AuthUser, ids: seq<Id>, now: int) returns (result: Result<BulkResult>)
    modifies store, store.ledger
    ensures ReimburseExpenses !in auth.grants ==> result == Err(Forbidden) && store.Current() == old(store.Current())
    ensures ReimburseExpenses in auth.grants ==>
              && result.Ok?
              && |result.value.succeeded| + |result.value.failed| == |Unique(ids)|
              && forall id :: id in result.value.succeeded <==>
                   id in ids && id in old(store.expenses) && old(store.expenses)[id].status == Approved
    ensures ReimburseExpenses in auth.grants ==>
              store.Current() == StateAfter(store.config, old(store.Current()), auth, BulkReimburse, Unique(ids), now)
    ensures ReimburseExpenses in auth.grants && result.Ok? ==>
              store.expenses == map id | id in old(store.expenses) ::
                if id in result.value.succeeded then old(store.expenses)[id].(status := Reimbursed)
                else old(store.expenses)[id]
  {
    if ReimburseExpenses !in auth.grants {
      return Err(Forbidden);
    }
    ghost var start := store.Current();
    UniqueSpec(ids);
    var all := PerformAll(store, auth, BulkReimburse, Unique(ids), now);
    ResultNamesGiven(store.config, start, auth, BulkReimburse, Unique(ids), now);
    forall id | id in ids
      ensures id in all.succeeded <==> id in start.expenses && start.expenses[id].status == Approved
    {
      BulkAnswersEachAlone(store.config, start, auth, BulkReimburse, Unique(ids), now, id);
    }
    KeepsExpenseIds(store.config, start, auth, BulkReimburse, Unique(ids), now);
    forall id | id in start.expenses
      ensures store.expenses[id] == if id in all.succeeded then start.expenses[id].(status := Reimbursed)
                                    else start.expenses[id]
    {
      if id in ids {
        BulkAnswersEachAlone(store.config, start, auth, BulkReimburse, Unique(ids), now, id);
      } else {
        OthersKeepView(store.config, start, auth, BulkReimburse, Unique(ids), now, id);
      }
    }
    return Ok(all);
  }
}
