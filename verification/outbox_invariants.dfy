/** Safety of the outbox in every run. */
module OutboxInvariants {
  import opened Domain
  import opened OutboxModel

  // ---------- What the steps do ----------

  /* The lemmas here say what a step amounts to; the invariants below are proved from that. */

  /** Run (x, i) went to `run`; only the key store and the history change besides. */
  ghost predicate RunSet(w: World, v: World, x: nat, i: nat, run: HandlerRun) {
    && IsRun(w, x, i)
    && v.executions == SetRun(w, x, i, run).executions
    && SameQueue(w, v) && v.rows == w.rows
  }

  predicate HasState(w: World, id: Id, state: JobState) {
    id in w.jobs && w.jobs[id].state == state
  }

  predicate SameQueue(w: World, v: World) {
    v.nextId == w.nextId && v.relays == w.relays && v.jobs == w.jobs && v.failures == w.failures
  }

  predicate SameKeys(w: World, v: World) {
    v.keys == w.keys && v.finished == w.finished && v.lost == w.lost
  }

  /** How the key of a run and its history change with it. */
  predicate KeyMoved(w: World, v: World, k: HandlerKey, from: HandlerRun, to: HandlerRun) {
    match (from, to)
    case (Ready, Running) => k !in w.keys && v.keys == w.keys + {k} && v.finished == w.finished && v.lost == w.lost
    case (Ready, Skipped) => k in w.keys && SameKeys(w, v)
    case (Ready, Threw(false)) =>
      || SameKeys(w, v)
      || (k !in w.keys && v.keys == w.keys + {k} && v.finished == w.finished && v.lost == w.lost + {k})
    case (Running, Done) => v.keys == w.keys && v.finished == w.finished[k := Completions(w, k) + 1] && v.lost == w.lost
    case (Running, Threw(true)) => SameKeys(w, v)
    case (Threw(true), Threw(false)) =>
      && v.finished == w.finished
      && ((v.keys == w.keys - {k} && v.lost == w.lost) || (v.keys == w.keys && v.lost == w.lost + {k}))
    case _ => false
  }

  /** A step of a handler moves one run, and only one that has not settled, on to its next state. */
  lemma RunStepSetsRun(w: World, a: Action) returns (run: HandlerRun)
    requires IsRunStep(a) && RunStep(w, a) != w
    ensures RunSet(w, RunStep(w, a), a.x, a.i, run)
    ensures KeyMoved(w, RunStep(w, a), KeyOf(w, a.x, a.i), w.executions[a.x].runs[a.i], run)
    ensures a.Acquire? || a.Finish? || run.Threw?
    ensures a.Finish? ==> run == Done
    ensures a.Acquire? ==> w.executions[a.x].runs[a.i] == Ready && !run.Threw?
    ensures RunStep(w, a).lost == w.lost || a.ReleaseFails? || (a.AcquireFails? && a.taken)
  {
    match a
    case Acquire(x, i) => run := if KeyOf(w, x, i) in w.keys then Skipped else Running;
    case AcquireFails(x, i, taken) => run := Threw(false);
    case Finish(x, i) => run := Done;
    case Throw(x, i) => run := Threw(true);
    case Release(x, i) => run := Threw(false);
    case ReleaseFails(x, i) => run := Threw(false);
  }

  predicate Ends(a: Action) {
    a.CompleteJob? || a.FailJob? || a.Die?
  }

  /** Execution `x` is over and its job left the active state for `next`. */
  ghost predicate Ended(w: World, v: World, x: nat, next: Job) {
    && x in w.executions && v.executions == w.executions - {x}
    && next.state != Active && v.jobs == Leave(w.jobs, w.executions[x].event, next)
    && v.rows == w.rows && v.nextId == w.nextId && v.relays == w.relays
    && v.keys == w.keys && v.finished == w.finished
  }

  lemma EndStep(w: World, a: Action) returns (next: Job)
    requires Ends(a) && ExecutionStep(w, a) != w
    ensures Ended(w, ExecutionStep(w, a), a.x, next)
    ensures next.state == Completed ==> w.executions[a.x].marked
    ensures a.Die? ==> ExecutionStep(w, a).lost == w.lost + HeldKeys(w, a.x)
    ensures !a.Die? ==> ExecutionStep(w, a).lost == w.lost
    ensures !a.Die? ==> w.executions[a.x].marked || AllSettled(w.executions[a.x].runs)
  {
    var id := w.executions[a.x].event;
    match a
    case CompleteJob(x) => next := Job(Completed, Attempts(w.jobs, id) + 1);
    case FailJob(x) =>
      var attempts := Attempts(w.jobs, id) + 1;
      next := Job(if MAX_ATTEMPTS <= attempts then Failed else Delayed, attempts);
    case Die(x, toFailed) => next := Job(if toFailed then Failed else Waiting, Attempts(w.jobs, id));
  }

  /** Each failed attempt counts, and the fifth one is the last: its event goes to the listener. */
  lemma FailedAttempt(w: World, x: nat)
    requires x in w.executions && AllSettled(w.executions[x].runs) && !w.executions[x].marked
    requires HasState(w, w.executions[x].event, Active)
    ensures var id := w.executions[x].event;
            var v := Step(w, FailJob(x));
            var attempts := w.jobs[id].attempts + 1;
            && id in v.jobs && x !in v.executions
            && v.jobs[id] == Job(if attempts < 5 then Delayed else Failed, attempts)
            && v.failures == if attempts < 5 then w.failures else w.failures + {id}
  {
  }

  lemma CompletedAttempt(w: World, x: nat)
    requires x in w.executions && w.executions[x].marked && HasState(w, w.executions[x].event, Active)
    ensures var id := w.executions[x].event;
            var v := Step(w, CompleteJob(x));
            && id in v.jobs && x !in v.executions
            && v.jobs[id] == Job(Completed, w.jobs[id].attempts + 1) && v.failures == w.failures
  {
  }

  /** A delayed job waits again with its attempts; a worker that dies leaves them as well. */
  lemma AttemptsAreKept(w: World, id: Id, x: nat, toFailed: bool)
    ensures HasState(w, id, Delayed) ==> Step(w, Retry(id)).jobs == w.jobs[id := Job(Waiting, w.jobs[id].attempts)]
    ensures x in w.executions && w.executions[x].event == id && HasState(w, id, Active) ==>
              Step(w, Die(x, toFailed)).jobs ==
                w.jobs[id := Job(if toFailed then Failed else Waiting, w.jobs[id].attempts)]
  {
  }

  /** An addition that finds a job there moves on without it. */
  lemma SkippedAdditions(w: World, r: nat)
    ensures var v := Step(w, RelaySkips(r));
            if r in w.relays && w.relays[r] != [] && w.relays[r][0] in w.jobs
            then v == w.(relays := v.relays) && v.relays == w.relays[r := w.relays[r][1..]]
            else v == w
  {
  }

  /** A listener that dies takes its failure along; without a failure none runs. */
  lemma LostFailures(w: World, id: Id)
    ensures var v := Step(w, ListenerDies(id));
            v == w.(failures := v.failures) && v.failures == w.failures - {id}
    ensures id !in w.failures ==> Step(w, Listen(id)) == w
  {
  }

  /** A new execution `x` of event `id`, whose job is active then. */
  ghost predicate Started(w: World, v: World, id: Id, x: nat) {
    && id in w.rows && id in w.jobs && x !in w.executions
    && v.executions == w.executions[x := Execution(id, seq(|w.rows[id].handlers|, i => Ready), false)]
    && v.jobs == w.jobs[id := w.jobs[id].(state := Active)]
    && v.rows == w.rows && v.nextId == w.nextId && v.relays == w.relays && SameKeys(w, v)
  }

  lemma StartStep(w: World, a: Action)
    requires (a.Begin? || a.Duplicate?) && ExecutionStep(w, a) != w
    ensures Started(w, ExecutionStep(w, a), a.id, a.x)
  {
    if a.Duplicate? { assert w.jobs[a.id := w.jobs[a.id].(state := Active)] == w.jobs; }
  }

  ghost predicate Marked(w: World, v: World, x: nat) {
    && x in w.executions
    && AllSettled(w.executions[x].runs) && !AnyThrew(w.executions[x].runs)
    && v.rows == SetProcessed(w.rows, w.executions[x].event)
    && v.executions == w.executions[x := w.executions[x].(marked := true)]
    && SameQueue(w, v) && SameKeys(w, v)
  }

  lemma MarkStep(w: World, a: Action)
    requires a.MarkProcessed? && ExecutionStep(w, a) != w
    ensures Marked(w, ExecutionStep(w, a), a.x)
  {
  }

  predicate IsTableStep(a: Action) {
    !IsRunStep(a) && !IsExecutionStep(a)
  }

  lemma TableStepKeepsExecutions(w: World, a: Action)
    requires IsTableStep(a)
    ensures TableStep(w, a).executions == w.executions && SameKeys(w, TableStep(w, a))
  {
  }

  /** A job of the queue is an old one, an enqueued or a retried one. */
  lemma TableStepJob(w: World, a: Action, id: Id)
    requires IsTableStep(a) && id in TableStep(w, a).jobs
    ensures var v := TableStep(w, a);
            || (id in w.jobs && v.jobs[id] == w.jobs[id])
            || (id in w.jobs && w.jobs[id].state == Delayed && v.jobs[id].state == Waiting)
            || (a.Relay? && a.relay in w.relays && id in w.relays[a.relay] && v.jobs[id].state == Waiting)
  {
  }

  /** Active jobs stay where they are. */
  lemma TableStepKeepsActive(w: World, a: Action, id: Id)
    requires IsTableStep(a) && id in w.jobs && w.jobs[id].state == Active
    ensures id in TableStep(w, a).jobs && TableStep(w, a).jobs[id] == w.jobs[id]
  {
  }

  lemma TableStepRelay(w: World, a: Action, r: nat)
    requires IsTableStep(a) && r in TableStep(w, a).relays
    ensures var v := TableStep(w, a);
            || (r in w.relays && v.relays[r] == w.relays[r])
            || (r in w.relays && w.relays[r] != [] && v.relays[r] == w.relays[r][1..])
            || (a.Claim? && v.relays[r] == a.batch && IsBatch(w.rows, a.batch))
  {
  }

  /** A row changes only when it was dispatched. */
  lemma TableStepRow(w: World, a: Action, id: Id)
    requires IsTableStep(a) && id in w.rows && id < w.nextId
    ensures id in TableStep(w, a).rows
    ensures TableStep(w, a).rows[id] == w.rows[id].(dispatchedAt := TableStep(w, a).rows[id].dispatchedAt)
  {
  }

  lemma TableStepNewRow(w: World, a: Action, id: Id)
    requires IsTableStep(a) && id in TableStep(w, a).rows && id !in w.rows
    ensures id == w.nextId && TableStep(w, a).nextId == w.nextId + 1
    ensures !TableStep(w, a).rows[id].processed
  {
  }

  lemma TableStepNextId(w: World, a: Action)
    requires IsTableStep(a)
    ensures w.nextId <= TableStep(w, a).nextId
  {
  }

  // ---------- Shape ----------

  /** Stores refer to rows; an execution has one run per handler, and only one that is marked
      has marked its row. */
  ghost predicate Shaped(w: World) {
    && (forall id :: id in w.rows ==> id < w.nextId)
    && (forall id :: id in w.jobs ==> id in w.rows)
    && (forall r, id :: r in w.relays && id in w.relays[r] ==> id in w.rows)
    && (forall x :: x in w.executions ==> ExecutionShaped(w, w.executions[x]))
  }

  ghost predicate ExecutionShaped(w: World, e: Execution) {
    && e.event in w.rows
    && |e.runs| == |w.rows[e.event].handlers|
    && (e.marked ==> AllSettled(e.runs) && !AnyThrew(e.runs) && w.rows[e.event].processed)
  }

  lemma {:induction false} SmallestFirstSpec(ids: set<Id>, n: nat)
    ensures forall id :: id in SmallestFirst(ids, n) ==> id in ids
    ensures |SmallestFirst(ids, n)| == if n < |ids| then n else |ids|
    ensures Distinct(SmallestFirst(ids, n))
    ensures forall id, other :: id in SmallestFirst(ids, n) && other in ids && other !in SmallestFirst(ids, n) ==>
              id < other
    decreases n
  {
    if n != 0 && ids != {} {
      var least := Least(ids);
      SmallestFirstSpec(ids - {least}, n - 1);
      assert forall id :: id in SmallestFirst(ids, n) <==> id == least || id in SmallestFirst(ids - {least}, n - 1);
      assert IsLeast(least, ids);
    }
  }

  /** A claim takes a batch, or nothing, and stamps its rows and no other. */
  lemma ClaimedSpec(rows: map<Id, Row>, locked: set<Id>, limit: nat, now: int)
    ensures var batch := SmallestFirst(PendingIds(rows) - locked, limit);
            && (batch != [] && limit <= BATCH_SIZE ==> IsBatch(rows, batch))
            && (batch == [] ==> Dispatch(rows, batch, now) == rows)
            && (forall id :: id in batch ==> id in PendingIds(rows))
  {
    SmallestFirstSpec(PendingIds(rows) - locked, limit);
  }

  /** A claim without locks takes fifty rows, or all if there are fewer. */
  lemma ClaimSize(rows: map<Id, Row>)
    ensures |SmallestFirst(PendingIds(rows), BATCH_SIZE)| == if 50 < |PendingIds(rows)| then 50 else |PendingIds(rows)|
  {
    SmallestFirstSpec(PendingIds(rows), BATCH_SIZE);
  }

  /** Rows are only added, keep their handlers, and stay processed. */
  ghost predicate RowsGrow(w: World, v: World) {
    && w.nextId <= v.nextId
    && forall id :: id in w.rows ==>
         id in v.rows && v.rows[id].handlers == w.rows[id].handlers && (w.rows[id].processed ==> v.rows[id].processed)
  }

  lemma TableStepRowsGrow(w: World, a: Action)
    requires Shaped(w) && IsTableStep(a)
    ensures RowsGrow(w, TableStep(w, a))
  {
    TableStepNextId(w, a);
    forall id | id in w.rows
      ensures id in TableStep(w, a).rows
      ensures TableStep(w, a).rows[id] == w.rows[id].(dispatchedAt := TableStep(w, a).rows[id].dispatchedAt)
    {
      TableStepRow(w, a, id);
    }
  }

  lemma ExecutionStepRowsGrow(w: World, a: Action)
    requires IsExecutionStep(a)
    ensures RowsGrow(w, ExecutionStep(w, a))
  {
    if ExecutionStep(w, a) != w {
      if a.MarkProcessed? {
        MarkStep(w, a);
      } else if Ends(a) {
        var next := EndStep(w, a);
      } else {
        StartStep(w, a);
      }
    }
  }

  lemma ProcessedIsPermanent(w: World, a: Action)
    requires Shaped(w)
    ensures RowsGrow(w, Step(w, a))
  {
    if IsRunStep(a) {
      if RunStep(w, a) != w { var run := RunStepSetsRun(w, a); }
    } else if IsExecutionStep(a) {
      ExecutionStepRowsGrow(w, a);
    } else {
      TableStepRowsGrow(w, a);
    }
  }

  lemma RunSetKeepsShape(w: World, v: World, x: nat, i: nat, run: HandlerRun)
    requires Shaped(w) && RunSet(w, v, x, i, run) && !IsSettled(w.executions[x].runs[i])
    ensures Shaped(v)
  {
    assert ExecutionShaped(w, w.executions[x]);
    forall y | y in v.executions
      ensures ExecutionShaped(v, v.executions[y])
    {
      assert ExecutionShaped(w, w.executions[y]);
    }
  }

  lemma StartedKeepsShape(w: World, v: World, id: Id, x: nat)
    requires Shaped(w) && Started(w, v, id, x)
    ensures Shaped(v)
  {
    forall y | y in v.executions
      ensures ExecutionShaped(v, v.executions[y])
    {
      if y != x { assert ExecutionShaped(w, w.executions[y]); }
    }
  }

  lemma MarkedKeepsShape(w: World, v: World, x: nat)
    requires Shaped(w) && Marked(w, v, x)
    ensures Shaped(v)
  {
    assert ExecutionShaped(w, w.executions[x]);
    forall y | y in v.executions
      ensures ExecutionShaped(v, v.executions[y])
    {
      assert ExecutionShaped(w, w.executions[y]);
    }
  }

  lemma EndedKeepsShape(w: World, v: World, x: nat, next: Job)
    requires Shaped(w) && Ended(w, v, x, next)
    ensures Shaped(v)
  {
    forall y | y in v.executions
      ensures ExecutionShaped(v, v.executions[y])
    {
      assert ExecutionShaped(w, w.executions[y]);
    }
  }

  lemma TableStepKeepsShape(w: World, a: Action)
    requires Shaped(w) && IsTableStep(a)
    ensures Shaped(TableStep(w, a))
  {
    var v := TableStep(w, a);
    TableStepRowsGrow(w, a);
    TableStepKeepsExecutions(w, a);
    forall id | id in v.rows
      ensures id < v.nextId
    {
      if id !in w.rows { TableStepNewRow(w, a, id); }
    }
    forall id | id in v.jobs
      ensures id in v.rows
    {
      TableStepJob(w, a, id);
    }
    forall r, id | r in v.relays && id in v.relays[r]
      ensures id in v.rows
    {
      TableStepRelay(w, a, r);
    }
    forall y | y in v.executions
      ensures ExecutionShaped(v, v.executions[y])
    {
      assert ExecutionShaped(w, w.executions[y]);
    }
  }

  lemma ExecutionStepKeepsShape(w: World, a: Action)
    requires Shaped(w) && IsExecutionStep(a)
    ensures Shaped(ExecutionStep(w, a))
  {
    var v := ExecutionStep(w, a);
    if v != w {
      if a.MarkProcessed? {
        MarkStep(w, a);
        MarkedKeepsShape(w, v, a.x);
      } else if Ends(a) {
        var next := EndStep(w, a);
        EndedKeepsShape(w, v, a.x, next);
      } else {
        StartStep(w, a);
        StartedKeepsShape(w, v, a.id, a.x);
      }
    }
  }

  lemma RunStepKeepsShape(w: World, a: Action)
    requires Shaped(w) && IsRunStep(a)
    ensures Shaped(RunStep(w, a))
  {
    if RunStep(w, a) != w {
      var run := RunStepSetsRun(w, a);
      RunSetKeepsShape(w, RunStep(w, a), a.x, a.i, run);
    }
  }

  lemma StepKeepsShape(w: World, a: Action)
    requires Shaped(w)
    ensures Shaped(Step(w, a))
  {
    if IsRunStep(a) {
      RunStepKeepsShape(w, a);
    } else if IsExecutionStep(a) {
      ExecutionStepKeepsShape(w, a);
    } else {
      TableStepKeepsShape(w, a);
    }
  }

  // ---------- The key protocol ----------

  /** Run `i` of execution `x` has set key `k` and not let go of it. */
  predicate HeldBy(w: World, x: nat, i: nat, k: HandlerKey) {
    IsRun(w, x, i) && HoldsKey(w.executions[x].runs[i]) && KeyOf(w, x, i) == k
  }

  ghost predicate IsHeld(w: World, k: HandlerKey) {
    exists x, i :: HeldBy(w, x, i, k)
  }

  /** A key in the store is with exactly one of: one run in progress, one completion, having
      been left behind. A key that is not in the store is with none. */
  ghost predicate KeySound(w: World, k: HandlerKey) {
    && (forall x, i, y, j :: HeldBy(w, x, i, k) && HeldBy(w, y, j, k) ==> x == y && i == j)
    && Completions(w, k) <= 1
    && (k in w.keys <==> IsHeld(w, k) || Completions(w, k) == 1 || k in w.lost)
    && !(IsHeld(w, k) && Completions(w, k) == 1)
    && !(IsHeld(w, k) && k in w.lost)
    && !(Completions(w, k) == 1 && k in w.lost)
  }

  ghost predicate KeysSound(w: World) {
    forall k :: KeySound(w, k)
  }

  /** Nothing about key `k` changes. */
  lemma UntouchedKey(w: World, v: World, k: HandlerKey)
    requires KeySound(w, k)
    requires (k in v.keys <==> k in w.keys) && Completions(v, k) == Completions(w, k) && (k in v.lost <==> k in w.lost)
    requires forall x, i :: HeldBy(v, x, i, k) <==> HeldBy(w, x, i, k)
    ensures KeySound(v, k)
  {
    if IsHeld(w, k) {
      var x, i :| HeldBy(w, x, i, k);
      assert HeldBy(v, x, i, k);
    }
  }

  /** Executions keep event and runs, rows their handlers. */
  ghost predicate SameHandlers(w: World, v: World) {
    && SameKeys(w, v)
    && v.executions.Keys == w.executions.Keys
    && (forall x :: x in w.executions ==>
          v.executions[x].event == w.executions[x].event && v.executions[x].runs == w.executions[x].runs)
    && (forall id :: id in w.rows ==> id in v.rows && v.rows[id].handlers == w.rows[id].handlers)
  }

  lemma SameHandlersKeepKey(w: World, v: World, k: HandlerKey)
    requires Shaped(w) && KeySound(w, k) && SameHandlers(w, v)
    ensures KeySound(v, k)
  {
    forall x, i
      ensures HeldBy(v, x, i, k) <==> HeldBy(w, x, i, k)
    {
      if x in w.executions { assert ExecutionShaped(w, w.executions[x]); }
    }
    UntouchedKey(w, v, k);
  }

  lemma RunSetHolders(w: World, v: World, x: nat, i: nat, run: HandlerRun, k: HandlerKey)
    requires RunSet(w, v, x, i, run)
    ensures forall y, j :: HeldBy(v, y, j, k) <==>
              if y == x && j == i then HoldsKey(run) && KeyOf(w, x, i) == k else HeldBy(w, y, j, k)
  {
  }

  /** The run let go of its key, or never took it. */
  lemma UnheldAfter(w: World, v: World, x: nat, i: nat, run: HandlerRun, k: HandlerKey)
    requires RunSet(w, v, x, i, run) && KeySound(w, k) && k == KeyOf(w, x, i) && !HoldsKey(run)
    requires HoldsKey(w.executions[x].runs[i])
    ensures !IsHeld(v, k) && IsHeld(w, k)
  {
    RunSetHolders(w, v, x, i, run, k);
    assert HeldBy(w, x, i, k);
  }

  lemma RunSetKeepsKey(w: World, v: World, x: nat, i: nat, run: HandlerRun, k: HandlerKey)
    requires KeySound(w, k) && RunSet(w, v, x, i, run)
    requires KeyMoved(w, v, KeyOf(w, x, i), w.executions[x].runs[i], run)
    ensures KeySound(v, k)
  {
    RunSetHolders(w, v, x, i, run, k);
    if k != KeyOf(w, x, i) {
      UntouchedKey(w, v, k);
    } else if HoldsKey(w.executions[x].runs[i]) {
      if HoldsKey(run) {
        UntouchedKey(w, v, k);
      } else {
        UnheldAfter(w, v, x, i, run, k);
      }
    } else if run == Running {
      assert HeldBy(v, x, i, k);
    } else if SameKeys(w, v) {
      UntouchedKey(w, v, k);
    }
  }

  lemma StartedKeepsKey(w: World, v: World, id: Id, x: nat, k: HandlerKey)
    requires KeySound(w, k) && Started(w, v, id, x)
    ensures KeySound(v, k)
  {
    UntouchedKey(w, v, k);
  }

  /** An execution that ends normally has settled, so it holds nothing any more. */
  lemma EndedKeepsKey(w: World, v: World, x: nat, next: Job, k: HandlerKey)
    requires Shaped(w) && KeySound(w, k) && Ended(w, v, x, next) && v.lost == w.lost
    requires w.executions[x].marked || AllSettled(w.executions[x].runs)
    ensures KeySound(v, k)
  {
    assert ExecutionShaped(w, w.executions[x]);
    UntouchedKey(w, v, k);
  }

  lemma DeathKeepsKey(w: World, v: World, x: nat, next: Job, k: HandlerKey)
    requires KeySound(w, k) && Ended(w, v, x, next) && v.lost == w.lost + HeldKeys(w, x)
    ensures KeySound(v, k)
  {
    assert forall y, j :: HeldBy(v, y, j, k) <==> y != x && HeldBy(w, y, j, k);
    if k in HeldKeys(w, x) {
      var runs := w.executions[x].runs;
      var i :| 0 <= i < |runs| && IsRun(w, x, i) && HoldsKey(runs[i]) && KeyOf(w, x, i) == k;
      assert HeldBy(w, x, i, k);
      assert !IsHeld(v, k);
    } else {
      forall j
        ensures !HeldBy(w, x, j, k)
      {
      }
      UntouchedKey(w, v, k);
    }
  }

  lemma ExecutionStepKeepsKey(w: World, a: Action, k: HandlerKey)
    requires Shaped(w) && KeySound(w, k) && IsExecutionStep(a)
    ensures KeySound(ExecutionStep(w, a), k)
  {
    var v := ExecutionStep(w, a);
    if v != w {
      if a.MarkProcessed? {
        MarkStep(w, a);
        SameHandlersKeepKey(w, v, k);
      } else if Ends(a) {
        var next := EndStep(w, a);
        if a.Die? { DeathKeepsKey(w, v, a.x, next, k); } else { EndedKeepsKey(w, v, a.x, next, k); }
      } else {
        StartStep(w, a);
        StartedKeepsKey(w, v, a.id, a.x, k);
      }
    }
  }

  lemma StepKeepsKey(w: World, a: Action, k: HandlerKey)
    requires Shaped(w) && KeySound(w, k)
    ensures KeySound(Step(w, a), k)
  {
    if IsRunStep(a) {
      if RunStep(w, a) != w {
        var run := RunStepSetsRun(w, a);
        RunSetKeepsKey(w, RunStep(w, a), a.x, a.i, run, k);
      }
    } else if IsExecutionStep(a) {
      ExecutionStepKeepsKey(w, a, k);
    } else {
      TableStepRowsGrow(w, a);
      TableStepKeepsExecutions(w, a);
      SameHandlersKeepKey(w, TableStep(w, a), k);
    }
  }

  // ---------- Runs ----------

  /** At most one execution of a handler is in progress and at most one completed, whatever dies,
      however often the key store fails and a job is executed twice. */
  lemma {:induction false} RunsKeepKeysSound(w: World, actions: seq<Action>)
    requires Shaped(w) && KeysSound(w)
    ensures Shaped(After(w, actions)) && KeysSound(After(w, actions))
  {
    if actions != [] {
      var front := actions[..|actions| - 1];
      RunsKeepKeysSound(w, front);
      var mid := After(w, front);
      StepKeepsShape(mid, actions[|actions| - 1]);
      forall k
        ensures KeySound(After(w, actions), k)
      {
        StepKeepsKey(mid, actions[|actions| - 1], k);
      }
    }
  }

  lemma EmptyIsSound(now: int)
    ensures Shaped(Empty(now)) && KeysSound(Empty(now))
  {
    forall k
      ensures KeySound(Empty(now), k)
    {
      assert forall x, i :: !HeldBy(Empty(now), x, i, k);
    }
  }
}
