/** No event is lost: from every reachable state an unprocessed event can still be processed. */
module OutboxProgress {
  import opened Domain
  import opened OutboxModel
  import opened OutboxInvariants

  predicate IsProcessed(w: World, id: Id) {
    id in w.rows && w.rows[id].processed
  }

  /** An active job has an execution; a completed job has marked its row. */
  ghost predicate JobsOk(w: World) {
    forall id :: id in w.jobs ==> JobOk(w, id)
  }

  ghost predicate JobOk(w: World, id: Id) {
    id in w.jobs ==>
      && id in w.rows
      && (w.jobs[id].state == Active ==> exists x :: x in w.executions && w.executions[x].event == id)
      && (w.jobs[id].state == Completed ==> w.rows[id].processed)
  }

  /** The execution goes on, or its job is active no more. */
  predicate Survives(w: World, v: World, x: nat)
    requires x in w.executions
  {
    || (x in v.executions && v.executions[x].event == w.executions[x].event)
    || !HasState(v, w.executions[x].event, Active)
  }

  lemma SurvivesRunStep(w: World, a: Action, x: nat)
    requires x in w.executions && IsRunStep(a)
    ensures Survives(w, RunStep(w, a), x)
  {
    if RunStep(w, a) != w { var run := RunStepSetsRun(w, a); }
  }

  lemma SurvivesTableStep(w: World, a: Action, x: nat)
    requires x in w.executions && IsTableStep(a)
    ensures Survives(w, TableStep(w, a), x)
  {
    TableStepKeepsExecutions(w, a);
  }

  lemma SurvivesExecutionStep(w: World, a: Action, x: nat)
    requires x in w.executions && IsExecutionStep(a)
    ensures Survives(w, ExecutionStep(w, a), x)
  {
    if ExecutionStep(w, a) != w {
      if a.MarkProcessed? {
        MarkStep(w, a);
      } else if Ends(a) {
        var next := EndStep(w, a);
      } else {
        StartStep(w, a);
      }
    }
  }

  lemma ExecutionSurvives(w: World, a: Action, x: nat)
    requires x in w.executions
    ensures Survives(w, Step(w, a), x)
  {
    if IsRunStep(a) {
      SurvivesRunStep(w, a, x);
    } else if IsExecutionStep(a) {
      SurvivesExecutionStep(w, a, x);
    } else {
      SurvivesTableStep(w, a, x);
    }
  }

  /** A job becomes active only with a new execution. */
  lemma BecomesActive(w: World, a: Action, id: Id)
    requires HasState(Step(w, a), id, Active)
    ensures HasState(w, id, Active) || exists x :: x in Step(w, a).executions && Step(w, a).executions[x].event == id
  {
    var v := Step(w, a);
    if IsTableStep(a) {
      TableStepJob(w, a, id);
    } else if v != w {
      if IsRunStep(a) {
        var run := RunStepSetsRun(w, a);
      } else if a.MarkProcessed? {
        MarkStep(w, a);
      } else if Ends(a) {
        var next := EndStep(w, a);
      } else {
        StartStep(w, a);
        assert a.x in v.executions;
      }
    }
  }

  /** A job completes only from an execution that has marked its row. */
  lemma BecomesCompleted(w: World, a: Action, id: Id)
    requires Shaped(w) && HasState(Step(w, a), id, Completed)
    ensures HasState(w, id, Completed) || IsProcessed(w, id)
  {
    var v := Step(w, a);
    if IsTableStep(a) {
      TableStepJob(w, a, id);
    } else if v != w {
      if IsRunStep(a) {
        var run := RunStepSetsRun(w, a);
      } else if a.MarkProcessed? {
        MarkStep(w, a);
      } else if Ends(a) {
        var next := EndStep(w, a);
        assert ExecutionShaped(w, w.executions[a.x]);
      } else {
        StartStep(w, a);
      }
    }
  }

  lemma StepKeepsJobsOk(w: World, a: Action)
    requires Shaped(w) && JobsOk(w)
    ensures JobsOk(Step(w, a))
  {
    var v := Step(w, a);
    StepKeepsShape(w, a);
    ProcessedIsPermanent(w, a);
    forall id | id in v.jobs
      ensures JobOk(v, id)
    {
      if HasState(v, id, Active) { StaysExecuted(w, a, id); }
      if HasState(v, id, Completed) {
        BecomesCompleted(w, a, id);
        assert JobOk(w, id);
      }
    }
  }

  lemma StaysExecuted(w: World, a: Action, id: Id)
    requires JobsOk(w) && HasState(Step(w, a), id, Active)
    ensures exists x :: x in Step(w, a).executions && Step(w, a).executions[x].event == id
  {
    BecomesActive(w, a, id);
    if HasState(w, id, Active) {
      assert JobOk(w, id);
      var x :| x in w.executions && w.executions[x].event == id;
      ExecutionSurvives(w, a, x);
    }
  }

  lemma {:induction false} RunsKeepJobsOk(w: World, actions: seq<Action>)
    requires Shaped(w) && JobsOk(w)
    ensures Shaped(After(w, actions)) && JobsOk(After(w, actions))
  {
    if actions != [] {
      var front := actions[..|actions| - 1];
      RunsKeepJobsOk(w, front);
      StepKeepsShape(After(w, front), actions[|actions| - 1]);
      StepKeepsJobsOk(After(w, front), actions[|actions| - 1]);
    }
  }

  // ---------- Composing runs ----------

  /** Steps of a system in which nothing fails or dies and no event is added. */
  predicate Benign(a: Action) {
    || a.Advance? || a.Claim? || a.Relay? || a.Reclaim? || a.Begin? || a.Acquire? || a.Finish? || a.Release?
    || a.MarkProcessed? || a.CompleteJob? || a.FailJob? || a.Retry? || a.Listen?
  }

  predicate AllBenign(actions: seq<Action>) {
    forall a :: a in actions ==> Benign(a)
  }

  /** Identifiers never run out. */
  lemma {:induction false} UnusedNumber(used: set<nat>) returns (number: nat)
    ensures forall x :: x in used ==> x < number
    decreases used
  {
    if used == {} {
      number := 0;
    } else {
      var pick :| pick in used;
      number := UnusedNumber(used - {pick});
      if number <= pick { number := pick + 1; }
      forall x | x in used
        ensures x < number
      {
        assert x == pick || x in used - {pick};
      }
    }
  }

  // ---------- Finishing an execution ----------

  function RunWork(run: HandlerRun): nat {
    match run
    case Ready => 2
    case Running => 1
    case Threw(holds) => if holds then 1 else 0
    case Done => 0
    case Skipped => 0
  }

  function TotalWork(runs: seq<HandlerRun>): nat {
    if runs == [] then 0 else TotalWork(runs[..|runs| - 1]) + RunWork(runs[|runs| - 1])
  }

  lemma {:induction false} WorkAfterUpdate(runs: seq<HandlerRun>, i: nat, run: HandlerRun)
    requires i < |runs|
    ensures TotalWork(runs[i := run]) == TotalWork(runs) - RunWork(runs[i]) + RunWork(run)
  {
    var n := |runs| - 1;
    if i == n {
      assert runs[i := run][..n] == runs[..n];
    } else {
      WorkAfterUpdate(runs[..n], i, run);
      assert runs[i := run][..n] == runs[..n][i := run];
    }
  }

  /** The next thing that run `i` does when its handler succeeds. */
  function Forward(x: nat, i: nat, run: HandlerRun): Action
    requires !IsSettled(run)
  {
    match run
    case Ready => Acquire(x, i)
    case Running => Finish(x, i)
    case Threw(_) => Release(x, i)
  }

  /** Rows and jobs are untouched and execution `x` is still there, without a new failure. */
  ghost predicate SameStage(w: World, v: World, x: nat) {
    && v.rows == w.rows && v.jobs == w.jobs
    && x in w.executions && x in v.executions
    && v.executions[x].event == w.executions[x].event
    && (AnyThrew(v.executions[x].runs) ==> AnyThrew(w.executions[x].runs))
  }

  function ForwardRun(w: World, x: nat, i: nat): HandlerRun
    requires IsRun(w, x, i) && !IsSettled(w.executions[x].runs[i])
  {
    match w.executions[x].runs[i]
    case Ready => if KeyOf(w, x, i) in w.keys then Skipped else Running
    case Running => Done
    case Threw(_) => Threw(false)
  }

  lemma ForwardSetsRun(w: World, x: nat, i: nat)
    requires IsRun(w, x, i) && !IsSettled(w.executions[x].runs[i])
    ensures var v := Step(w, Forward(x, i, w.executions[x].runs[i]));
            RunSet(w, v, x, i, ForwardRun(w, x, i))
  {
  }

  lemma ForwardAdvances(w: World, x: nat, i: nat)
    requires Shaped(w) && x in w.executions && i < |w.executions[x].runs| && !IsSettled(w.executions[x].runs[i])
    ensures var v := Step(w, Forward(x, i, w.executions[x].runs[i]));
            SameStage(w, v, x) && TotalWork(v.executions[x].runs) < TotalWork(w.executions[x].runs)
  {
    assert ExecutionShaped(w, w.executions[x]);
    assert IsRun(w, x, i);
    ForwardSetsRun(w, x, i);
    SetAdvances(w.executions[x].runs, i, ForwardRun(w, x, i));
  }

  lemma SetAdvances(runs: seq<HandlerRun>, i: nat, run: HandlerRun)
    requires i < |runs| && RunWork(run) < RunWork(runs[i]) && (run.Threw? ==> runs[i].Threw?)
    ensures TotalWork(runs[i := run]) < TotalWork(runs)
    ensures AnyThrew(runs[i := run]) ==> AnyThrew(runs)
  {
    WorkAfterUpdate(runs, i, run);
    if AnyThrew(runs[i := run]) {
      var j :| 0 <= j < |runs| && runs[i := run][j].Threw?;
      assert runs[j].Threw?;
    }
  }

  lemma {:induction false} HandlersSettle(w: World, x: nat) returns (actions: seq<Action>)
    requires Shaped(w) && x in w.executions
    ensures AllBenign(actions)
    ensures var v := After(w, actions); Shaped(v) && SameStage(w, v, x) && AllSettled(v.executions[x].runs)
    decreases TotalWork(w.executions[x].runs)
  {
    if AllSettled(w.executions[x].runs) {
      actions := [];
    } else {
      var i: nat :| i < |w.executions[x].runs| && !IsSettled(w.executions[x].runs[i]);
      var a := Forward(x, i, w.executions[x].runs[i]);
      ForwardAdvances(w, x, i);
      StepKeepsShape(w, a);
      var rest := HandlersSettle(Step(w, a), x);
      actions := [a] + rest;
      AfterCons(w, a, rest);
    }
  }

  // ---------- The stages of an event ----------

  lemma SettledMarks(w: World, x: nat) returns (actions: seq<Action>)
    requires Shaped(w) && x in w.executions && AllSettled(w.executions[x].runs) && !AnyThrew(w.executions[x].runs)
    ensures AllBenign(actions) && IsProcessed(After(w, actions), w.executions[x].event)
  {
    assert ExecutionShaped(w, w.executions[x]);
    actions := [MarkProcessed(x)];
    AfterOne(w, MarkProcessed(x));
  }

  lemma FreshExecution(w: World, id: Id, x: nat)
    requires id in w.rows && HasState(w, id, Waiting) && x !in w.executions
    ensures var v := Step(w, Begin(id, x));
            x in v.executions && v.executions[x].event == id && !AnyThrew(v.executions[x].runs)
  {
  }

  /** A waiting job starts afresh, and with succeeding handlers it processes its event. */
  lemma WaitingProcesses(w: World, id: Id) returns (actions: seq<Action>)
    requires Shaped(w) && HasState(w, id, Waiting)
    ensures AllBenign(actions) && IsProcessed(After(w, actions), id)
  {
    var x := UnusedNumber(w.executions.Keys);
    var start := Begin(id, x);
    FreshExecution(w, id, x);
    StepKeepsShape(w, start);
    var begun := Step(w, start);
    var settle := HandlersSettle(begun, x);
    var mark := SettledMarks(After(begun, settle), x);
    AfterConcat(begun, settle, mark);
    AfterCons(w, start, settle + mark);
    actions := [start] + (settle + mark);
  }

  lemma DelayedProcesses(w: World, id: Id) returns (actions: seq<Action>)
    requires Shaped(w) && HasState(w, id, Delayed)
    ensures AllBenign(actions) && IsProcessed(After(w, actions), id)
  {
    StepKeepsShape(w, Retry(id));
    var rest := WaitingProcesses(Step(w, Retry(id)), id);
    AfterCons(w, Retry(id), rest);
    actions := [Retry(id)] + rest;
  }

  /** Relaying the batch in order reaches the event. */
  lemma {:induction false} RelayReaches(w: World, r: nat, id: Id) returns (actions: seq<Action>)
    requires Shaped(w) && r in w.relays && id in w.relays[r] && !IsLive(w.jobs, id)
    ensures AllBenign(actions)
    ensures Shaped(After(w, actions)) && HasState(After(w, actions), id, Waiting)
    decreases |if r in w.relays then w.relays[r] else []|
  {
    var a := Relay(r);
    var v := Step(w, a);
    StepKeepsShape(w, a);
    if w.relays[r][0] == id {
      actions := [a];
      AfterOne(w, a);
    } else {
      assert w.relays[r] == [w.relays[r][0]] + w.relays[r][1..];
      assert !IsLive(v.jobs, id);
      var rest := RelayReaches(v, r, id);
      actions := [a] + rest;
      AfterCons(w, a, rest);
    }
  }

  function SmallerPending(w: World, id: Id): set<Id> {
    set p | p in PendingIds(w.rows) && p < id
  }

  lemma ClaimStep(w: World, r: nat, batch: seq<Id>)
    requires r !in w.relays && IsBatch(w.rows, batch)
    ensures Step(w, Claim(r, batch)) == w.(rows := Dispatch(w.rows, batch, w.now), relays := w.relays[r := batch])
  {
  }

  lemma DispatchedAreNotPending(rows: map<Id, Row>, batch: seq<Id>, now: int)
    ensures forall id :: id in PendingIds(Dispatch(rows, batch, now)) <==> id in PendingIds(rows) && id !in batch
  {
  }

  /** A claim of the oldest rows takes the event, or shrinks the set of pending events before it. */
  lemma ClaimApproaches(w: World, r: nat, id: Id) returns (claim: Action)
    requires Shaped(w) && r !in w.relays && id in PendingIds(w.rows)
    ensures claim == Claim(r, SmallestFirst(PendingIds(w.rows), BATCH_SIZE))
    ensures var v := Step(w, claim);
            && v.jobs == w.jobs && r in v.relays
            && (id !in v.relays[r] ==> id in PendingIds(v.rows) && SmallerPending(v, id) < SmallerPending(w, id))
  {
    var batch := SmallestFirst(PendingIds(w.rows), BATCH_SIZE);
    claim := Claim(r, batch);
    SmallestFirstSpec(PendingIds(w.rows), BATCH_SIZE);
    assert |PendingIds(w.rows)| != 0;
    ClaimStep(w, r, batch);
    DispatchedAreNotPending(w.rows, batch, w.now);
    var v := w.(rows := Dispatch(w.rows, batch, w.now), relays := w.relays[r := batch]);
    if id !in batch {
      assert batch[0] in batch;
      assert batch[0] in SmallerPending(w, id) && batch[0] !in SmallerPending(v, id);
    }
  }

  lemma {:induction false} PendingProcesses(w: World, id: Id) returns (actions: seq<Action>)
    requires Shaped(w) && id in PendingIds(w.rows) && !IsLive(w.jobs, id)
    ensures AllBenign(actions) && IsProcessed(After(w, actions), id)
    decreases SmallerPending(w, id)
  {
    var r := UnusedNumber(w.relays.Keys);
    var claim := ClaimApproaches(w, r, id);
    StepKeepsShape(w, claim);
    var v := Step(w, claim);
    var rest;
    if id in v.relays[r] {
      var reach := RelayReaches(v, r, id);
      var process := WaitingProcesses(After(v, reach), id);
      AfterConcat(v, reach, process);
      rest := reach + process;
    } else {
      rest := PendingProcesses(v, id);
    }
    AfterCons(w, claim, rest);
    actions := [claim] + rest;
  }

  lemma TimePasses(w: World, instant: int) returns (v: World)
    requires w.now <= instant && Shaped(w)
    ensures v == Step(w, Advance(instant)) && Shaped(v) && v == w.(now := instant)
  {
    v := Step(w, Advance(instant));
    StepKeepsShape(w, Advance(instant));
  }

  /** A row that was dispatched is reclaimed once the stuck window has passed. */
  lemma ReclaimFrees(w: World, id: Id) returns (v: World)
    requires Shaped(w) && id in w.rows && !w.rows[id].processed
    requires w.rows[id].dispatchedAt.Some? ==> w.rows[id].dispatchedAt.value + STUCK_AFTER_MS < w.now
    ensures v == Step(w, Reclaim) && Shaped(v) && id in PendingIds(v.rows) && v.jobs == w.jobs
  {
    v := Step(w, Reclaim);
    StepKeepsShape(w, Reclaim);
  }

  lemma IdleProcesses(w: World, id: Id) returns (actions: seq<Action>)
    requires Shaped(w) && id in w.rows && !w.rows[id].processed && !IsLive(w.jobs, id)
    ensures AllBenign(actions) && IsProcessed(After(w, actions), id)
  {
    var d := w.rows[id].dispatchedAt;
    var later := if d.Some? && w.now < d.value + STUCK_AFTER_MS + 1 then d.value + STUCK_AFTER_MS + 1 else w.now;
    var v := TimePasses(w, later);
    var u := ReclaimFrees(v, id);
    var rest := PendingProcesses(u, id);
    AfterCons(v, Reclaim, rest);
    AfterCons(w, Advance(later), [Reclaim] + rest);
    actions := [Advance(later)] + ([Reclaim] + rest);
  }

  /** An execution in progress either processes its event or fails its job, which is then retried
      or, out of attempts, left to be reclaimed. */
  lemma ActiveProcesses(w: World, id: Id) returns (actions: seq<Action>)
    requires Shaped(w) && JobsOk(w) && HasState(w, id, Active) && !w.rows[id].processed
    ensures AllBenign(actions) && IsProcessed(After(w, actions), id)
  {
    var x :| x in w.executions && w.executions[x].event == id;
    var settle := HandlersSettle(w, x);
    var v := After(w, settle);
    var rest;
    if AnyThrew(v.executions[x].runs) {
      assert ExecutionShaped(v, v.executions[x]);
      var fail := FailJob(x);
      StepKeepsShape(v, fail);
      var failed := Step(v, fail);
      assert failed.rows == w.rows;
      var later;
      if HasState(failed, id, Delayed) {
        later := DelayedProcesses(failed, id);
      } else {
        later := IdleProcesses(failed, id);
      }
      AfterCons(v, fail, later);
      rest := [fail] + later;
    } else {
      rest := SettledMarks(v, x);
    }
    AfterConcat(w, settle, rest);
    actions := settle + rest;
  }

  /** From every reachable state, with or without crashes and duplicates before it, there is a
      continuation without further failures in which the event is processed. */
  lemma NoEventIsLost(now: int, past: seq<Action>, id: Id)
    requires id in After(Empty(now), past).rows
    ensures exists actions :: AllBenign(actions) && IsProcessed(After(After(Empty(now), past), actions), id)
  {
    EmptyIsSound(now);
    RunsKeepJobsOk(Empty(now), past);
    var w := After(Empty(now), past);
    var actions;
    if w.rows[id].processed {
      actions := [];
    } else if HasState(w, id, Waiting) {
      actions := WaitingProcesses(w, id);
    } else if HasState(w, id, Delayed) {
      actions := DelayedProcesses(w, id);
    } else if HasState(w, id, Active) {
      actions := ActiveProcesses(w, id);
    } else {
      actions := IdleProcesses(w, id);
    }
    assert AllBenign(actions) && IsProcessed(After(w, actions), id);
  }

  /** Once processed, an event stays processed, with the same handlers. */
  lemma {:induction false} ProcessedForever(w: World, actions: seq<Action>, id: Id)
    requires Shaped(w) && JobsOk(w) && IsProcessed(w, id)
    ensures IsProcessed(After(w, actions), id) && After(w, actions).rows[id].handlers == w.rows[id].handlers
  {
    if actions != [] {
      var front := actions[..|actions| - 1];
      ProcessedForever(w, front, id);
      RunsKeepJobsOk(w, front);
      ProcessedIsPermanent(After(w, front), actions[|actions| - 1]);
    }
  }
}
