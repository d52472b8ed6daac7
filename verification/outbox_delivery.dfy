/** Delivery: what a processed event says about its handlers. */
module OutboxDelivery {
  import opened Domain
  import opened OutboxModel
  import opened OutboxInvariants

  /** A job runs in one worker at a time. */
  ghost predicate Exclusive(w: World) {
    && (forall x :: x in w.executions ==> HasState(w, w.executions[x].event, Active))
    && (forall x, y ::
          x in w.executions && y in w.executions && w.executions[x].event == w.executions[y].event ==> x == y)
  }

  /** The handler completed, or its key was left behind. */
  predicate SettledFor(w: World, k: HandlerKey) {
    Completions(w, k) == 1 || k in w.lost
  }

  /** A handler was skipped because of an earlier completion, a key left behind, or a run of the same
      name in the same execution. */
  ghost predicate RunExplained(w: World, x: nat, i: nat)
    requires IsRun(w, x, i)
  {
    var runs := w.executions[x].runs;
    && (runs[i] == Done ==> SettledFor(w, KeyOf(w, x, i)))
    && (runs[i] == Skipped ==> SettledFor(w, KeyOf(w, x, i)) || exists j: nat :: MayExplain(w, x, i, j))
  }

  /** Run `j` has the name of run `i` and took the key, or failed under it. */
  predicate MayExplain(w: World, x: nat, i: nat, j: nat)
    requires IsRun(w, x, i)
  {
    && IsRun(w, x, j)
    && KeyOf(w, x, j) == KeyOf(w, x, i)
    && (w.executions[x].runs[j] == Running || w.executions[x].runs[j].Threw?)
  }

  ghost predicate Explained(w: World) {
    forall x, i :: IsRun(w, x, i) ==> RunExplained(w, x, i)
  }

  ghost predicate Delivered(w: World) {
    forall id :: id in w.rows && w.rows[id].processed ==>
      forall n :: n in w.rows[id].handlers ==> SettledFor(w, (id, n))
  }

  ghost predicate DeliverySound(w: World) {
    Shaped(w) && KeysSound(w) && Exclusive(w) && Explained(w) && Delivered(w)
  }

  // ---------- Preservation ----------

  lemma CompletionsGrow(w: World, a: Action, k: HandlerKey)
    ensures Completions(w, k) <= Completions(Step(w, a), k)
    ensures w.lost <= Step(w, a).lost
  {
    if IsRunStep(a) {
      RunStepHistory(w, a, k);
    } else if IsExecutionStep(a) {
      ExecutionStepHistory(w, a);
    } else {
      TableStepKeepsExecutions(w, a);
    }
  }

  lemma RunStepHistory(w: World, a: Action, k: HandlerKey)
    requires IsRunStep(a)
    ensures Completions(w, k) <= Completions(RunStep(w, a), k)
    ensures w.lost <= RunStep(w, a).lost
  {
    if RunStep(w, a) != w { var run := RunStepSetsRun(w, a); }
  }

  lemma ExecutionStepHistory(w: World, a: Action)
    requires IsExecutionStep(a)
    ensures ExecutionStep(w, a).finished == w.finished
    ensures w.lost <= ExecutionStep(w, a).lost && (ExecutionStep(w, a).lost == w.lost || a.Die?)
  {
    if ExecutionStep(w, a) != w {
      if a.MarkProcessed? {
        MarkStep(w, a);
      } else if Ends(a) {
        var next := EndStep(w, a);
      } else {
        StartStep(w, a);
      }
    }
  }

  lemma SettlingIsPermanent(w: World, a: Action, k: HandlerKey)
    requires Shaped(w) && KeySound(w, k) && SettledFor(w, k)
    ensures SettledFor(Step(w, a), k)
  {
    StepKeepsKey(w, a, k);
    CompletionsGrow(w, a, k);
  }

  // ---------- One worker per job ----------

  lemma StartedKeepsExclusive(w: World, v: World, id: Id, x: nat)
    requires Exclusive(w) && Started(w, v, id, x) && w.jobs[id].state == Waiting
    ensures Exclusive(v)
  {
  }

  lemma EndedKeepsExclusive(w: World, v: World, x: nat, next: Job)
    requires Exclusive(w) && Ended(w, v, x, next)
    ensures Exclusive(v)
  {
  }

  lemma BeginsWaitingJob(w: World, a: Action)
    requires a.Begin? && ExecutionStep(w, a) != w
    ensures a.id in w.jobs && w.jobs[a.id].state == Waiting
  {
  }

  lemma TableStepKeepsExclusive(w: World, a: Action)
    requires Exclusive(w) && IsTableStep(a)
    ensures Exclusive(TableStep(w, a))
  {
    TableStepKeepsExecutions(w, a);
    forall id | HasState(w, id, Active)
      ensures HasState(TableStep(w, a), id, Active)
    {
      TableStepKeepsActive(w, a, id);
    }
  }

  lemma ExecutionStepKeepsExclusive(w: World, a: Action)
    requires Exclusive(w) && IsExecutionStep(a) && !a.Duplicate?
    ensures Exclusive(ExecutionStep(w, a))
  {
    var v := ExecutionStep(w, a);
    if v != w {
      if a.MarkProcessed? {
        MarkStep(w, a);
      } else if Ends(a) {
        var next := EndStep(w, a);
        EndedKeepsExclusive(w, v, a.x, next);
      } else {
        StartStep(w, a);
        BeginsWaitingJob(w, a);
        StartedKeepsExclusive(w, v, a.id, a.x);
      }
    }
  }

  lemma RunStepKeepsExclusive(w: World, a: Action)
    requires Exclusive(w) && IsRunStep(a)
    ensures Exclusive(RunStep(w, a))
  {
    if RunStep(w, a) != w { var run := RunStepSetsRun(w, a); }
  }

  lemma StepKeepsExclusive(w: World, a: Action)
    requires Exclusive(w) && !a.Duplicate?
    ensures Exclusive(Step(w, a))
  {
    if IsRunStep(a) {
      RunStepKeepsExclusive(w, a);
    } else if IsExecutionStep(a) {
      ExecutionStepKeepsExclusive(w, a);
    } else {
      TableStepKeepsExclusive(w, a);
    }
  }

  // ---------- Every skipped handler is explained ----------

  /** The runs of execution `x` and their keys are the same. */
  ghost predicate SameRuns(w: World, v: World, x: nat) {
    && x in w.executions && x in v.executions
    && v.executions[x].event == w.executions[x].event && v.executions[x].runs == w.executions[x].runs
    && w.executions[x].event in w.rows && w.executions[x].event in v.rows
    && v.rows[w.executions[x].event].handlers == w.rows[w.executions[x].event].handlers
  }

  lemma UnchangedRunStaysExplained(w: World, v: World, x: nat, i: nat)
    requires SameRuns(w, v, x) && IsRun(w, x, i) && RunExplained(w, x, i)
    requires SettledFor(w, KeyOf(w, x, i)) ==> SettledFor(v, KeyOf(w, x, i))
    ensures IsRun(v, x, i) && RunExplained(v, x, i)
  {
    if w.executions[x].runs[i] == Skipped && !SettledFor(w, KeyOf(w, x, i)) {
      var j: nat :| MayExplain(w, x, i, j);
      assert MayExplain(v, x, i, j);
    }
  }

  /** A change of run `i` leaves the other runs of the execution explained: the run that explains a
      skipped one completes, or throws, but does not vanish. */
  lemma SiblingStaysExplained(w: World, v: World, x: nat, i: nat, run: HandlerRun, j: nat)
    requires RunSet(w, v, x, i, run) && IsRun(w, x, j) && RunExplained(w, x, j) && j != i
    requires SettledFor(w, KeyOf(w, x, j)) ==> SettledFor(v, KeyOf(w, x, j))
    requires w.executions[x].runs[i] == Running || w.executions[x].runs[i].Threw? ==>
               run.Threw? || SettledFor(v, KeyOf(w, x, i))
    ensures IsRun(v, x, j) && RunExplained(v, x, j)
  {
    if w.executions[x].runs[j] == Skipped && !SettledFor(v, KeyOf(w, x, j)) {
      var e: nat :| MayExplain(w, x, j, e);
      assert MayExplain(v, x, j, e);
    }
  }

  /** A run that was skipped found its key with a sibling, a completion, or left behind. */
  lemma SkippedRunIsExplained(w: World, v: World, x: nat, i: nat)
    requires DeliverySound(w) && RunSet(w, v, x, i, Skipped) && SameKeys(w, v) && KeyOf(w, x, i) in w.keys
    requires w.executions[x].runs[i] == Ready
    ensures IsRun(v, x, i) && RunExplained(v, x, i)
  {
    var k := KeyOf(w, x, i);
    assert KeySound(w, k);
    if IsHeld(w, k) {
      var y, j :| HeldBy(w, y, j, k);
      assert w.executions[y].event == w.executions[x].event;
      assert y == x && j != i;
      assert MayExplain(v, x, i, j);
    }
  }

  lemma FinishedRunIsSettled(w: World, v: World, x: nat, i: nat)
    requires KeysSound(w) && RunSet(w, v, x, i, Done) && KeyMoved(w, v, KeyOf(w, x, i), w.executions[x].runs[i], Done)
    ensures SettledFor(v, KeyOf(w, x, i))
  {
    var k := KeyOf(w, x, i);
    assert KeySound(w, k);
    assert HeldBy(w, x, i, k);
  }

  lemma MovedRunIsExplained(w: World, v: World, x: nat, i: nat, run: HandlerRun)
    requires DeliverySound(w) && RunSet(w, v, x, i, run)
    requires KeyMoved(w, v, KeyOf(w, x, i), w.executions[x].runs[i], run)
    ensures IsRun(v, x, i) && RunExplained(v, x, i)
    ensures w.executions[x].runs[i] == Running || w.executions[x].runs[i].Threw? ==>
              run.Threw? || SettledFor(v, KeyOf(w, x, i))
  {
    if run == Skipped { SkippedRunIsExplained(w, v, x, i); }
    if run == Done { FinishedRunIsSettled(w, v, x, i); }
  }

  lemma RunStepKeepsExplained(w: World, a: Action)
    requires DeliverySound(w) && IsRunStep(a)
    ensures Explained(RunStep(w, a))
  {
    var v := RunStep(w, a);
    if v != w {
      var run := RunStepSetsRun(w, a);
      MovedRunIsExplained(w, v, a.x, a.i, run);
      forall x: nat, i: nat | IsRun(v, x, i)
        ensures RunExplained(v, x, i)
      {
        var k := KeyOf(v, x, i);
        assert KeySound(w, k);
        if SettledFor(w, k) { SettlingIsPermanent(w, a, k); }
        RunStaysExplained(w, v, a.x, a.i, run, x, i);
      }
    }
  }

  lemma RunStaysExplained(w: World, v: World, x0: nat, i0: nat, run: HandlerRun, x: nat, i: nat)
    requires Explained(w) && RunSet(w, v, x0, i0, run) && IsRun(v, x, i)
    requires SettledFor(w, KeyOf(v, x, i)) ==> SettledFor(v, KeyOf(v, x, i))
    requires x == x0 && i == i0 ==> RunExplained(v, x, i)
    requires w.executions[x0].runs[i0] == Running || w.executions[x0].runs[i0].Threw? ==>
               run.Threw? || SettledFor(v, KeyOf(w, x0, i0))
    ensures RunExplained(v, x, i)
  {
    if x != x0 || i != i0 {
      assert IsRun(w, x, i) && RunExplained(w, x, i);
      if x == x0 {
        SiblingStaysExplained(w, v, x, i0, run, i);
      } else {
        UnchangedRunStaysExplained(w, v, x, i);
      }
    }
  }

  /** An execution is new and has called no handler yet, or its runs are the same. */
  lemma OtherStepRuns(w: World, a: Action, x: nat)
    requires Shaped(w) && !IsRunStep(a) && x in Step(w, a).executions
    ensures SameRuns(w, Step(w, a), x) || forall run :: run in Step(w, a).executions[x].runs ==> run == Ready
  {
    ProcessedIsPermanent(w, a);
    if x in w.executions { assert ExecutionShaped(w, w.executions[x]); }
    if IsTableStep(a) {
      TableStepKeepsExecutions(w, a);
    } else {
      ExecutionStepRuns(w, a, x);
    }
  }

  lemma ExecutionStepRuns(w: World, a: Action, x: nat)
    requires IsExecutionStep(a) && x in ExecutionStep(w, a).executions
    ensures var v := ExecutionStep(w, a);
            || (x in w.executions
                && v.executions[x].event == w.executions[x].event && v.executions[x].runs == w.executions[x].runs)
            || forall run :: run in v.executions[x].runs ==> run == Ready
  {
    if ExecutionStep(w, a) != w {
      if a.MarkProcessed? {
        MarkStep(w, a);
      } else if Ends(a) {
        var next := EndStep(w, a);
      } else {
        StartStep(w, a);
      }
    }
  }

  lemma StepKeepsExplained(w: World, a: Action)
    requires DeliverySound(w)
    ensures Explained(Step(w, a))
  {
    var v := Step(w, a);
    if IsRunStep(a) {
      RunStepKeepsExplained(w, a);
    } else {
      forall x: nat, i: nat | IsRun(v, x, i)
        ensures RunExplained(v, x, i)
      {
        OtherStepRuns(w, a, x);
        if SameRuns(w, v, x) {
          assert IsRun(w, x, i) && RunExplained(w, x, i);
          assert KeySound(w, KeyOf(w, x, i));
          if SettledFor(w, KeyOf(w, x, i)) { SettlingIsPermanent(w, a, KeyOf(w, x, i)); }
          UnchangedRunStaysExplained(w, v, x, i);
        } else {
          assert v.executions[x].runs[i] in v.executions[x].runs;
        }
      }
    }
  }

  // ---------- Every processed event is delivered ----------

  /** When an execution marks its row, every handler of the event is settled. */
  lemma MarkedRowIsDelivered(w: World, x: nat, n: string)
    requires DeliverySound(w) && x in w.executions
    requires AllSettled(w.executions[x].runs) && !AnyThrew(w.executions[x].runs)
    requires n in w.rows[w.executions[x].event].handlers
    ensures SettledFor(w, (w.executions[x].event, n))
  {
    assert ExecutionShaped(w, w.executions[x]);
    var id := w.executions[x].event;
    var i: nat :| i < |w.rows[id].handlers| && w.rows[id].handlers[i] == n;
    assert IsRun(w, x, i) && RunExplained(w, x, i);
    assert IsSettled(w.executions[x].runs[i]) && !w.executions[x].runs[i].Threw?;
  }

  /** Only marking makes a row processed. */
  lemma NewlyProcessed(w: World, a: Action, id: Id)
    requires Shaped(w)
    requires id in Step(w, a).rows && Step(w, a).rows[id].processed && !(id in w.rows && w.rows[id].processed)
    ensures a.MarkProcessed? && a.x in w.executions && w.executions[a.x].event == id && id in w.rows
    ensures AllSettled(w.executions[a.x].runs) && !AnyThrew(w.executions[a.x].runs)
  {
    var v := Step(w, a);
    if IsRunStep(a) {
      var run := RunStepSetsRun(w, a);
    } else if IsTableStep(a) {
      if id in w.rows { TableStepRow(w, a, id); } else { TableStepNewRow(w, a, id); }
    } else if a.MarkProcessed? {
      MarkStep(w, a);
    } else if Ends(a) {
      var next := EndStep(w, a);
    } else {
      StartStep(w, a);
    }
  }

  lemma StepKeepsDelivered(w: World, a: Action)
    requires DeliverySound(w)
    ensures Delivered(Step(w, a))
  {
    var v := Step(w, a);
    ProcessedIsPermanent(w, a);
    forall id, n | id in v.rows && v.rows[id].processed && n in v.rows[id].handlers
      ensures SettledFor(v, (id, n))
    {
      assert KeySound(w, (id, n));
      if id in w.rows && w.rows[id].processed {
        assert SettledFor(w, (id, n));
      } else {
        NewlyProcessed(w, a, id);
        MarkedRowIsDelivered(w, a.x, n);
      }
      SettlingIsPermanent(w, a, (id, n));
    }
  }

  lemma StepKeepsDelivery(w: World, a: Action)
    requires DeliverySound(w) && !a.Duplicate?
    ensures DeliverySound(Step(w, a))
  {
    StepKeepsShape(w, a);
    forall k
      ensures KeySound(Step(w, a), k)
    {
      StepKeepsKey(w, a, k);
    }
    StepKeepsExclusive(w, a);
    StepKeepsExplained(w, a);
    StepKeepsDelivered(w, a);
  }

  // ---------- Runs ----------

  lemma {:induction false} RunsKeepDelivery(w: World, actions: seq<Action>)
    requires DeliverySound(w) && forall a :: a in actions ==> !a.Duplicate?
    ensures DeliverySound(After(w, actions))
  {
    if actions != [] {
      RunsKeepDelivery(w, actions[..|actions| - 1]);
      StepKeepsDelivery(After(w, actions[..|actions| - 1]), actions[|actions| - 1]);
    }
  }

  /** Across any pattern of failures, retries, reclaims, stale relays and crashes, as long as a job
      runs in one worker at a time: every handler of a processed event completed exactly once,
      unless its key was left behind by a dead worker or a failing key store, and then it never
      completed. */
  lemma ProcessedMeansHandledOnce(now: int, actions: seq<Action>, id: Id, n: string)
    requires forall a :: a in actions ==> !a.Duplicate?
    requires var w := After(Empty(now), actions);
             id in w.rows && w.rows[id].processed && n in w.rows[id].handlers
    ensures var w := After(Empty(now), actions);
            Completions(w, (id, n)) == if (id, n) in w.lost then 0 else 1
  {
    EmptyIsSound(now);
    RunsKeepDelivery(Empty(now), actions);
    assert KeySound(After(Empty(now), actions), (id, n));
  }

  /** A worker dies, or loses the key store between a key and its deletion. */
  predicate LeavesKey(a: Action) {
    a.Die? || a.ReleaseFails? || (a.AcquireFails? && a.taken)
  }

  lemma {:induction false} NothingLostWithoutCrash(w: World, actions: seq<Action>)
    requires forall a :: a in actions ==> !LeavesKey(a)
    ensures After(w, actions).lost == w.lost
  {
    if actions != [] {
      NothingLostWithoutCrash(w, actions[..|actions| - 1]);
      KeysAreOnlyLostByCrash(After(w, actions[..|actions| - 1]), actions[|actions| - 1]);
    }
  }

  lemma KeysAreOnlyLostByCrash(w: World, a: Action)
    requires !LeavesKey(a)
    ensures Step(w, a).lost == w.lost
  {
    if IsRunStep(a) {
      if RunStep(w, a) != w { var run := RunStepSetsRun(w, a); }
    } else if IsExecutionStep(a) {
      ExecutionStepHistory(w, a);
    } else {
      TableStepKeepsExecutions(w, a);
    }
  }

  /** In a crash-free run every handler of a processed event completed exactly once. */
  lemma CrashFreeRunsHandleOnce(now: int, actions: seq<Action>, id: Id, n: string)
    requires forall a :: a in actions ==> !a.Duplicate? && !LeavesKey(a)
    requires var w := After(Empty(now), actions);
             id in w.rows && w.rows[id].processed && n in w.rows[id].handlers
    ensures Completions(After(Empty(now), actions), (id, n)) == 1
  {
    ProcessedMeansHandledOnce(now, actions, id, n);
    NothingLostWithoutCrash(Empty(now), actions);
  }

  // ---------- With duplicate executions ----------

  /** The exact condition in every run, with crashes, key-store failures and duplicate executions:
      a handler has completed, and then once, exactly if its key is in the store, nobody holds it and
      it was not left behind. */
  lemma {:induction false} HandledExactly(now: int, actions: seq<Action>, k: HandlerKey)
    ensures var w := After(Empty(now), actions);
            && Completions(w, k) <= 1
            && (Completions(w, k) == 1 <==> k in w.keys && !IsHeld(w, k) && k !in w.lost)
  {
    EmptyIsSound(now);
    RunsKeepKeysSound(Empty(now), actions);
    assert KeySound(After(Empty(now), actions), k);
  }

  /** The step gives key `k` back after its handler threw. */
  predicate Frees(w: World, a: Action, k: HandlerKey) {
    a.Release? && IsRun(w, a.x, a.i) && KeyOf(w, a.x, a.i) == k && w.executions[a.x].runs[a.i] == Threw(true)
  }

  lemma RunStepKeepsTakenKey(w: World, a: Action, k: HandlerKey)
    requires IsRunStep(a) && k in w.keys && !Frees(w, a, k)
    ensures k in RunStep(w, a).keys
  {
  }

  lemma ExecutionStepKeepsStore(w: World, a: Action)
    requires IsExecutionStep(a)
    ensures ExecutionStep(w, a).keys == w.keys
  {
  }

  /** Nothing but giving it back takes a key out of the store, held, completed or left behind. */
  lemma OnlyReleaseFreesKey(w: World, a: Action, k: HandlerKey)
    requires k in w.keys && k !in Step(w, a).keys
    ensures Frees(w, a, k)
  {
    if IsRunStep(a) {
      if !Frees(w, a, k) { RunStepKeepsTakenKey(w, a, k); }
    } else if IsExecutionStep(a) {
      ExecutionStepKeepsStore(w, a);
    } else {
      TableStepKeepsExecutions(w, a);
    }
  }

  /** Run `i` of execution `x` is over without a throw. */
  predicate PassedUnder(w: World, x: nat, i: nat, k: HandlerKey) {
    IsRun(w, x, i) && KeyOf(w, x, i) == k && (w.executions[x].runs[i] == Done || w.executions[x].runs[i] == Skipped)
  }

  /** A handler that completed or was skipped, or whose event counts as processed, has its key taken. */
  ghost predicate KeyTaken(w: World, k: HandlerKey) {
    && (forall x: nat, i: nat :: PassedUnder(w, x, i, k) ==> k in w.keys)
    && (k.0 in w.rows && w.rows[k.0].processed && k.1 in w.rows[k.0].handlers ==> k in w.keys)
  }

  lemma RunStepKeepsTaken(w: World, a: Action, k: HandlerKey)
    requires KeySound(w, k) && KeyTaken(w, k) && IsRunStep(a) && !Frees(w, a, k)
    ensures KeyTaken(RunStep(w, a), k)
  {
    var v := RunStep(w, a);
    if v != w {
      var run := RunStepSetsRun(w, a);
      if k in w.keys { RunStepKeepsTakenKey(w, a, k); }
      if KeyOf(w, a.x, a.i) == k && run == Done {
        assert HeldBy(w, a.x, a.i, k);
      }
      forall x: nat, i: nat | PassedUnder(v, x, i, k)
        ensures k in v.keys
      {
        if x != a.x || i != a.i { assert PassedUnder(w, x, i, k); }
      }
    }
  }

  lemma MarkedKeepsTaken(w: World, v: World, x: nat, k: HandlerKey)
    requires Shaped(w) && KeyTaken(w, k) && Marked(w, v, x)
    ensures KeyTaken(v, k)
  {
    var e := w.executions[x];
    assert ExecutionShaped(w, e);
    if k.0 == e.event && k.1 in w.rows[k.0].handlers {
      var i: nat :| i < |w.rows[k.0].handlers| && w.rows[k.0].handlers[i] == k.1;
      assert IsRun(w, x, i) && KeyOf(w, x, i) == k;
      assert IsSettled(e.runs[i]) && !e.runs[i].Threw?;
      assert PassedUnder(w, x, i, k);
    }
    forall y: nat, i: nat | PassedUnder(v, y, i, k)
      ensures k in v.keys
    {
      assert PassedUnder(w, y, i, k);
    }
  }

  lemma StartedKeepsTaken(w: World, v: World, id: Id, x: nat, k: HandlerKey)
    requires KeyTaken(w, k) && Started(w, v, id, x)
    ensures KeyTaken(v, k)
  {
    forall y: nat, i: nat | PassedUnder(v, y, i, k)
      ensures k in v.keys
    {
      assert y != x && PassedUnder(w, y, i, k);
    }
  }

  lemma EndedKeepsTaken(w: World, v: World, x: nat, next: Job, k: HandlerKey)
    requires KeyTaken(w, k) && Ended(w, v, x, next)
    ensures KeyTaken(v, k)
  {
    forall y: nat, i: nat | PassedUnder(v, y, i, k)
      ensures k in v.keys
    {
      assert PassedUnder(w, y, i, k);
    }
  }

  lemma ExecutionStepKeepsTaken(w: World, a: Action, k: HandlerKey)
    requires Shaped(w) && KeyTaken(w, k) && IsExecutionStep(a)
    ensures KeyTaken(ExecutionStep(w, a), k)
  {
    var v := ExecutionStep(w, a);
    if v != w {
      if a.MarkProcessed? {
        MarkStep(w, a);
        MarkedKeepsTaken(w, v, a.x, k);
      } else if Ends(a) {
        var next := EndStep(w, a);
        EndedKeepsTaken(w, v, a.x, next, k);
      } else {
        StartStep(w, a);
        StartedKeepsTaken(w, v, a.id, a.x, k);
      }
    }
  }

  lemma TableStepKeepsTaken(w: World, a: Action, k: HandlerKey)
    requires Shaped(w) && KeyTaken(w, k) && IsTableStep(a)
    ensures KeyTaken(TableStep(w, a), k)
  {
    var v := TableStep(w, a);
    TableStepKeepsExecutions(w, a);
    TableStepRowsGrow(w, a);
    if k.0 in v.rows {
      if k.0 in w.rows { TableStepRow(w, a, k.0); } else { TableStepNewRow(w, a, k.0); }
    }
    forall x: nat, i: nat | PassedUnder(v, x, i, k)
      ensures k in v.keys
    {
      assert ExecutionShaped(w, w.executions[x]);
      assert PassedUnder(w, x, i, k);
    }
  }

  lemma StepKeepsTaken(w: World, a: Action, k: HandlerKey)
    requires Shaped(w) && KeySound(w, k) && KeyTaken(w, k) && !Frees(w, a, k)
    ensures KeyTaken(Step(w, a), k)
  {
    if IsRunStep(a) {
      RunStepKeepsTaken(w, a, k);
    } else if IsExecutionStep(a) {
      ExecutionStepKeepsTaken(w, a, k);
    } else {
      TableStepKeepsTaken(w, a, k);
    }
  }

  predicate FreedDuring(w: World, actions: seq<Action>, k: HandlerKey) {
    actions != [] &&
    var front := actions[..|actions| - 1];
    FreedDuring(w, front, k) || Frees(After(w, front), actions[|actions| - 1], k)
  }

  lemma {:induction false} UnfreedKeyStaysTaken(w: World, actions: seq<Action>, k: HandlerKey)
    requires Shaped(w) && KeysSound(w) && KeyTaken(w, k) && !FreedDuring(w, actions, k)
    ensures KeyTaken(After(w, actions), k)
  {
    if actions != [] {
      var front := actions[..|actions| - 1];
      UnfreedKeyStaysTaken(w, front, k);
      RunsKeepKeysSound(w, front);
      assert KeySound(After(w, front), k);
      StepKeepsTaken(After(w, front), actions[|actions| - 1], k);
    }
  }

  /** In every run, duplicate executions included: if no throw gave the key of a handler back, then
      once its event counts as processed the handler has completed exactly once, or is still in
      progress, or its key was left behind. So a duplicate execution can cost an event a handler only
      by way of a throw. */
  lemma {:induction false} ProcessedWithoutThrow(now: int, actions: seq<Action>, id: Id, n: string)
    requires !FreedDuring(Empty(now), actions, (id, n))
    requires var w := After(Empty(now), actions);
             id in w.rows && w.rows[id].processed && n in w.rows[id].handlers
    ensures var w := After(Empty(now), actions);
            && (id, n) in w.keys
            && Completions(w, (id, n)) == if IsHeld(w, (id, n)) || (id, n) in w.lost then 0 else 1
  {
    EmptyIsSound(now);
    assert KeyTaken(Empty(now), (id, n));
    UnfreedKeyStaysTaken(Empty(now), actions, (id, n));
    HandledExactly(now, actions, (id, n));
  }

  // ---------- Where it fails ----------

  function OneActiveHandler(name: string): World {
    var run := Execution(1, [Running], false);
    World(0, map[1 := Row([name], Some(0), false)], 2, map[], map[1 := Job(Active, 0)], {},
          map[0 := run], {(1, name)}, map[], {})
  }

  /** The single event after it was appended, claimed, relayed and begun. */
  function Appended(name: string): World {
    Empty(0).(rows := map[1 := Row([name], None, false)], nextId := 2)
  }

  function Claimed(name: string): World {
    Appended(name).(rows := map[1 := Row([name], Some(0), false)], relays := map[0 := [1]])
  }

  function Queued(name: string): World {
    Claimed(name).(relays := map[0 := []], jobs := map[1 := Job(Waiting, 0)])
  }

  function Begun(name: string): World {
    Queued(name).(relays := map[], jobs := map[1 := Job(Active, 0)],
                  executions := map[0 := Execution(1, [Ready], false)])
  }

  lemma ClaimsTheEvent(name: string)
    ensures Step(Appended(name), Claim(0, [1])) == Claimed(name)
  {
    assert IsBatch(Appended(name).rows, [1]);
  }

  lemma QueuesTheEvent(name: string)
    ensures Step(Claimed(name), Relay(0)) == Queued(name)
  {
  }

  lemma BeginsTheJob(name: string)
    ensures Step(Step(Queued(name), RelayEnds(0)), Begin(1, 0)) == Begun(name)
  {
    assert Step(Queued(name), RelayEnds(0)).relays == map[];
    assert Step(Step(Queued(name), RelayEnds(0)), Begin(1, 0)).executions[0] == Execution(1, [Ready], false);
  }

  lemma TakesTheKey(name: string)
    ensures Step(Begun(name), Acquire(0, 0)) == OneActiveHandler(name)
  {
    assert IsRun(Begun(name), 0, 0) && KeyOf(Begun(name), 0, 0) == (1, name);
    assert Begun(name).executions[0].runs[0 := Running] == [Running];
  }

  lemma OneActiveHandlerIsReachable(name: string)
    ensures exists actions :: OneActiveHandler(name) == After(Empty(0), actions)
  {
    AfterOne(Empty(0), Append([name]));
    var actions := [Append([name])];
    assert After(Empty(0), actions) == Appended(name);
    ClaimsTheEvent(name);
    actions := Extended(actions, Claim(0, [1]));
    QueuesTheEvent(name);
    actions := Extended(actions, Relay(0));
    actions := Extended(actions, RelayEnds(0));
    BeginsTheJob(name);
    actions := Extended(actions, Begin(1, 0));
    TakesTheKey(name);
    actions := Extended(actions, Acquire(0, 0));
  }

  lemma Extended(actions: seq<Action>, a: Action) returns (longer: seq<Action>)
    ensures After(Empty(0), longer) == Step(After(Empty(0), actions), a)
  {
    longer := actions + [a];
    AfterConcat(Empty(0), actions, [a]);
    AfterOne(After(Empty(0), actions), a);
  }

  /** The worker of the one event is gone, and another one takes the job up. */
  function AfterDeath(name: string, state: JobState, executions: map<nat, Execution>, processed: bool): World {
    OneActiveHandler(name).(rows := map[1 := Row([name], Some(0), processed)], jobs := map[1 := Job(state, 0)],
                            executions := executions, lost := {(1, name)})
  }

  lemma WorkerDies(name: string)
    ensures Step(OneActiveHandler(name), Die(0, false)) == AfterDeath(name, Waiting, map[], false)
  {
    var w := OneActiveHandler(name);
    assert IsRun(w, 0, 0) && KeyOf(w, 0, 0) == (1, name);
    assert (1, name) in HeldKeys(w, 0);
    assert HeldKeys(w, 0) == {(1, name)};
    assert w.executions - {0} == map[];
  }

  lemma JobIsTakenUp(name: string)
    ensures Step(AfterDeath(name, Waiting, map[], false), Begin(1, 1)) ==
            AfterDeath(name, Active, map[1 := Execution(1, [Ready], false)], false)
  {
    assert Step(AfterDeath(name, Waiting, map[], false), Begin(1, 1)).executions[1] == Execution(1, [Ready], false);
  }

  lemma HandlerIsSkipped(name: string)
    ensures Step(AfterDeath(name, Active, map[1 := Execution(1, [Ready], false)], false), Acquire(1, 0)) ==
            AfterDeath(name, Active, map[1 := Execution(1, [Skipped], false)], false)
  {
    var w := AfterDeath(name, Active, map[1 := Execution(1, [Ready], false)], false);
    assert IsRun(w, 1, 0) && KeyOf(w, 1, 0) == (1, name);
    assert w.executions[1].runs[0 := Skipped] == [Skipped];
  }

  lemma EventCountsAsProcessed(name: string)
    ensures Step(AfterDeath(name, Active, map[1 := Execution(1, [Skipped], false)], false), MarkProcessed(1)) ==
            AfterDeath(name, Active, map[1 := Execution(1, [Skipped], true)], true)
  {
  }

  /** A worker dies inside a handler: the retry skips the handler, and the event counts as
      processed although the handler never completed. */
  lemma CrashLosesHandler(name: string)
    ensures var w := After(OneActiveHandler(name), [Die(0, false), Begin(1, 1), Acquire(1, 0), MarkProcessed(1)]);
            1 in w.rows && w.rows[1].processed && Completions(w, (1, name)) == 0
  {
    var w := OneActiveHandler(name);
    DeathAndRetry(name);
    SkipAndMark(name);
    AfterConcat(w, [Die(0, false), Begin(1, 1)], [Acquire(1, 0), MarkProcessed(1)]);
    assert [Die(0, false), Begin(1, 1)] + [Acquire(1, 0), MarkProcessed(1)] ==
           [Die(0, false), Begin(1, 1), Acquire(1, 0), MarkProcessed(1)];
  }

  lemma DeathAndRetry(name: string)
    ensures After(OneActiveHandler(name), [Die(0, false), Begin(1, 1)]) ==
            AfterDeath(name, Active, map[1 := Execution(1, [Ready], false)], false)
  {
    WorkerDies(name);
    JobIsTakenUp(name);
    StepsOfTwo(OneActiveHandler(name), Die(0, false), Begin(1, 1));
  }

  lemma SkipAndMark(name: string)
    ensures After(AfterDeath(name, Active, map[1 := Execution(1, [Ready], false)], false),
                  [Acquire(1, 0), MarkProcessed(1)]) ==
            AfterDeath(name, Active, map[1 := Execution(1, [Skipped], true)], true)
  {
    HandlerIsSkipped(name);
    EventCountsAsProcessed(name);
    StepsOfTwo(AfterDeath(name, Active, map[1 := Execution(1, [Ready], false)], false), Acquire(1, 0),
               MarkProcessed(1));
  }

  /** The job of the one event runs in two workers. */
  function TwoWorkers(name: string, first: HandlerRun, second: HandlerRun, marked: bool, keys: set<HandlerKey>): World {
    World(0, map[1 := Row([name], Some(0), marked)], 2, map[], map[1 := Job(Active, 0)], {},
          map[0 := Execution(1, [first], false), 1 := Execution(1, [second], marked)], keys, map[], {})
  }

  lemma DuplicateStarts(name: string)
    ensures Step(OneActiveHandler(name), Duplicate(1, 1)) == TwoWorkers(name, Running, Ready, false, {(1, name)})
  {
    assert Step(OneActiveHandler(name), Duplicate(1, 1)).executions[1] == Execution(1, [Ready], false);
  }

  lemma DuplicateSkips(name: string)
    ensures Step(TwoWorkers(name, Running, Ready, false, {(1, name)}), Acquire(1, 0)) ==
            TwoWorkers(name, Running, Skipped, false, {(1, name)})
  {
    var w := TwoWorkers(name, Running, Ready, false, {(1, name)});
    assert IsRun(w, 1, 0) && KeyOf(w, 1, 0) == (1, name);
    assert w.executions[1].runs[0 := Skipped] == [Skipped];
  }

  lemma DuplicateMarks(name: string)
    ensures Step(TwoWorkers(name, Running, Skipped, false, {(1, name)}), MarkProcessed(1)) ==
            TwoWorkers(name, Running, Skipped, true, {(1, name)})
  {
  }

  lemma FirstThrows(name: string)
    ensures Step(TwoWorkers(name, Running, Skipped, true, {(1, name)}), Throw(0, 0)) ==
            TwoWorkers(name, Threw(true), Skipped, true, {(1, name)})
  {
    var w := TwoWorkers(name, Running, Skipped, true, {(1, name)});
    assert IsRun(w, 0, 0);
    assert w.executions[0].runs[0 := Threw(true)] == [Threw(true)];
  }

  lemma FirstReleases(name: string)
    ensures Step(TwoWorkers(name, Threw(true), Skipped, true, {(1, name)}), Release(0, 0)) ==
            TwoWorkers(name, Threw(false), Skipped, true, {})
  {
    var w := TwoWorkers(name, Threw(true), Skipped, true, {(1, name)});
    assert IsRun(w, 0, 0) && KeyOf(w, 0, 0) == (1, name);
    assert w.executions[0].runs[0 := Threw(false)] == [Threw(false)];
  }

  /** A job executed twice: the second execution skips the handler in progress and marks the event
      processed; if the handler then throws, nobody runs it again. */
  lemma DuplicateLosesHandler(name: string)
    ensures var w := After(OneActiveHandler(name),
                           [Duplicate(1, 1), Acquire(1, 0), MarkProcessed(1), Throw(0, 0), Release(0, 0)]);
            1 in w.rows && w.rows[1].processed && Completions(w, (1, name)) == 0 && w.keys == {} && w.lost == {}
  {
    DuplicateRuns(name);
    OriginalFails(name);
    AfterConcat(OneActiveHandler(name), [Duplicate(1, 1), Acquire(1, 0), MarkProcessed(1)],
                [Throw(0, 0), Release(0, 0)]);
    assert [Duplicate(1, 1), Acquire(1, 0), MarkProcessed(1)] + [Throw(0, 0), Release(0, 0)] ==
           [Duplicate(1, 1), Acquire(1, 0), MarkProcessed(1), Throw(0, 0), Release(0, 0)];
  }

  lemma DuplicateRuns(name: string)
    ensures After(OneActiveHandler(name), [Duplicate(1, 1), Acquire(1, 0), MarkProcessed(1)]) ==
            TwoWorkers(name, Running, Skipped, true, {(1, name)})
  {
    DuplicateStarts(name);
    DuplicateSkips(name);
    DuplicateMarks(name);
    StepsOfThree(OneActiveHandler(name), Duplicate(1, 1), Acquire(1, 0), MarkProcessed(1));
  }

  lemma OriginalFails(name: string)
    ensures After(TwoWorkers(name, Running, Skipped, true, {(1, name)}), [Throw(0, 0), Release(0, 0)]) ==
            TwoWorkers(name, Threw(false), Skipped, true, {})
  {
    FirstThrows(name);
    FirstReleases(name);
    StepsOfTwo(TwoWorkers(name, Running, Skipped, true, {(1, name)}), Throw(0, 0), Release(0, 0));
  }
}
