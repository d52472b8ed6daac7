/** The outbox services over their stores. Each method is one thread of the program, run on its own;
    lemmas give the steps of the model that such a thread takes. */
module OutboxStore {
  import opened Domain
  import opened OutboxModel
  import opened OutboxInvariants

  /** What goes wrong while one event is enqueued: the lookup of its job, or adding the new one. */
  datatype Fault = NoFault | LookupFails | AddFails

  /** How one handler call goes: the key store may fail before or after it took the key, and when
      a handler that threw is to give its key back. */
  datatype Outcome = Succeeds | Throws | StoreFails(taken: bool) | ThrowsAndKeepsKey

  // ---------- What one thread does ----------

  predicate EnqueueThrows(jobs: map<Id, Job>, id: Id, fault: Fault) {
    fault.LookupFails? || (fault.AddFails? && !IsLive(jobs, id))
  }

  /** The queue may lose the finished job of an event before it fails to add the new one. */
  function Enqueued(jobs: map<Id, Job>, id: Id, fault: Fault): map<Id, Job> {
    if fault.LookupFails? then jobs
    else if EnqueueThrows(jobs, id, fault) then jobs - {id}
    else Enqueue(jobs, id)
  }

  /** The relay's loop over a claimed batch, up to its end or its first failure. */
  function Relayed(w: World, batch: seq<Id>, faults: Id -> Fault): World
    decreases |batch|
  {
    if batch == [] then w
    else
      var next := w.(jobs := Enqueued(w.jobs, batch[0], faults(batch[0])));
      if EnqueueThrows(w.jobs, batch[0], faults(batch[0])) then next.(rows := ClearDispatched(w.rows, batch[0]))
      else Relayed(next, batch[1..], faults)
  }

  /** What remains of a run once its handler call is over. */
  function Settled(outcome: Outcome, keyTaken: bool): (run: HandlerRun)
    ensures IsSettled(run)
    ensures run.Threw? <==> outcome.StoreFails? || (!keyTaken && (outcome.Throws? || outcome.ThrowsAndKeepsKey?))
    ensures run == Skipped ==> keyTaken
  {
    match outcome
    case StoreFails(_) => Threw(false)
    case Succeeds => if keyTaken then Skipped else Done
    case Throws => if keyTaken then Skipped else Threw(false)
    case ThrowsAndKeepsKey => if keyTaken then Skipped else Threw(false)
  }

  /** One call of a handler through its once-only key. */
  function Handled(w: World, x: nat, i: nat, outcome: Outcome): World
    requires IsRun(w, x, i)
  {
    var k := KeyOf(w, x, i);
    var v := SetRun(w, x, i, Settled(outcome, k in w.keys));
    if k in w.keys then v
    else
      match outcome
      case StoreFails(taken) => if taken then v.(keys := w.keys + {k}, lost := w.lost + {k}) else v
      case Succeeds => v.(keys := w.keys + {k}, finished := w.finished[k := Completions(w, k) + 1])
      case Throws => v
      case ThrowsAndKeepsKey => v.(keys := w.keys + {k}, lost := w.lost + {k})
  }

  /** One run per handler. */
  predicate IsWhole(w: World, x: nat) {
    && x in w.executions && w.executions[x].event in w.rows
    && |w.executions[x].runs| == |w.rows[w.executions[x].event].handlers|
  }

  /** The calls of the first `n` handlers of an execution. */
  function HandledUpTo(w: World, x: nat, outcomes: seq<Outcome>, n: nat): (v: World)
    requires IsWhole(w, x) && n <= |outcomes| == |w.executions[x].runs|
    ensures IsWhole(v, x) && v.rows == w.rows && v.jobs == w.jobs && v.executions[x].event == w.executions[x].event
  {
    if n == 0 then w else Handled(HandledUpTo(w, x, outcomes, n - 1), x, n - 1, outcomes[n - 1])
  }

  // ---------- The same as steps of the model ----------

  function RelaySteps(jobs: map<Id, Job>, r: nat, batch: seq<Id>, faults: Id -> Fault): seq<Action>
    decreases |batch|
  {
    if batch == [] then [RelayEnds(r)]
    else
      var fault := faults(batch[0]);
      if !EnqueueThrows(jobs, batch[0], fault) then
        [Relay(r)] + RelaySteps(Enqueue(jobs, batch[0]), r, batch[1..], faults)
      else if fault.LookupFails? then [RelayFails(r)]
      else [Evict(batch[0]), RelayFails(r)]
  }

  /** A step that the key rules out is idle. */
  function HandlerSteps(x: nat, i: nat, outcome: Outcome): seq<Action> {
    match outcome
    case Succeeds => [Acquire(x, i), Finish(x, i)]
    case Throws => [Acquire(x, i), Throw(x, i), Release(x, i)]
    case ThrowsAndKeepsKey => [Acquire(x, i), Throw(x, i), ReleaseFails(x, i)]
    case StoreFails(taken) => [AcquireFails(x, i, taken)]
  }

  /** The steps of all handlers of an execution, one handler after the other. */
  function DispatchSteps(x: nat, outcomes: seq<Outcome>): seq<seq<Action>> {
    seq(|outcomes|, i requires 0 <= i < |outcomes| => HandlerSteps(x, i, outcomes[i]))
  }

  function Flatten(runs: seq<seq<Action>>): seq<Action> {
    if runs == [] then [] else Flatten(runs[..|runs| - 1]) + runs[|runs| - 1]
  }

  /** Runs that lead from world to world lead from the first to the last. */
  lemma {:induction false} AfterFlatten(worlds: seq<World>, runs: seq<seq<Action>>)
    requires |worlds| == |runs| + 1
    requires forall i :: 0 <= i < |runs| ==> After(worlds[i], runs[i]) == worlds[i + 1]
    ensures After(worlds[0], Flatten(runs)) == worlds[|runs|]
  {
    if runs == [] {
      NoSteps(worlds[0]);
    } else {
      var n := |runs| - 1;
      AfterFlatten(worlds[..n + 1], runs[..n]);
      AfterConcat(worlds[0], Flatten(runs[..n]), runs[n]);
      assert After(worlds[n], runs[n]) == worlds[n + 1];
    }
  }

  lemma NoSteps(w: World)
    ensures After(w, []) == w
  {
  }

  lemma RelayStep(w: World, r: nat, id: Id, rest: seq<Id>)
    requires r in w.relays && w.relays[r] == [id] + rest
    ensures Step(w, Relay(r)) == w.(jobs := Enqueue(w.jobs, id), relays := w.relays[r := rest])
  {
    assert w.relays[r][1..] == rest;
  }

  lemma RelayFailsStep(w: World, r: nat, id: Id, rest: seq<Id>)
    requires r in w.relays && w.relays[r] == [id] + rest
    ensures Step(w, RelayFails(r)) == w.(rows := ClearDispatched(w.rows, id), relays := w.relays - {r})
  {
  }

  lemma EvictStep(w: World, id: Id)
    requires !IsLive(w.jobs, id)
    ensures Step(w, Evict(id)) == w.(jobs := w.jobs - {id})
  {
    if id !in w.jobs { assert w.jobs - {id} == w.jobs; }
  }

  /** The relay's loop is a run of the model, wherever it fails. */
  lemma {:induction false} RelayedBySteps(w: World, r: nat, batch: seq<Id>, faults: Id -> Fault)
    requires r in w.relays && w.relays[r] == batch
    ensures After(w, RelaySteps(w.jobs, r, batch, faults)) == Relayed(w, batch, faults).(relays := w.relays - {r})
    decreases |batch|
  {
    if batch == [] {
      AfterOne(w, RelayEnds(r));
    } else {
      assert batch == [batch[0]] + batch[1..];
      if !EnqueueThrows(w.jobs, batch[0], faults(batch[0])) {
        RelayStep(w, r, batch[0], batch[1..]);
        var v := Step(w, Relay(r));
        AfterCons(w, Relay(r), RelaySteps(v.jobs, r, batch[1..], faults));
        RelayedBySteps(v, r, batch[1..], faults);
        assert v.relays - {r} == w.relays - {r};
        RelayedIgnoresRelays(v, w.(jobs := v.jobs), batch[1..], faults);
      } else if faults(batch[0]).LookupFails? {
        RelayFailsStep(w, r, batch[0], batch[1..]);
        AfterOne(w, RelayFails(r));
      } else {
        EvictStep(w, batch[0]);
        RelayFailsStep(Step(w, Evict(batch[0])), r, batch[0], batch[1..]);
        StepsOfTwo(w, Evict(batch[0]), RelayFails(r));
      }
    }
  }

  /** Enqueuing is idempotent: a live job is never touched, and a batch relayed without a fault
      leaves every one of its events with a live job. */
  lemma {:induction false} RelayedSpec(w: World, batch: seq<Id>, faults: Id -> Fault)
    ensures forall id :: IsLive(w.jobs, id) ==>
              id in Relayed(w, batch, faults).jobs && Relayed(w, batch, faults).jobs[id] == w.jobs[id]
    ensures (forall id :: id in batch ==> faults(id) == NoFault) ==>
              && Relayed(w, batch, faults).rows == w.rows
              && forall id :: id in batch ==> IsLive(Relayed(w, batch, faults).jobs, id)
    decreases |batch|
  {
    if batch != [] {
      assert batch == [batch[0]] + batch[1..];
      var jobs := Enqueued(w.jobs, batch[0], faults(batch[0]));
      if !EnqueueThrows(w.jobs, batch[0], faults(batch[0])) {
        RelayedSpec(w.(jobs := jobs), batch[1..], faults);
        assert IsLive(jobs, batch[0]);
      }
    }
  }

  lemma {:induction false} RelayedIgnoresRelays(w: World, v: World, batch: seq<Id>, faults: Id -> Fault)
    requires w.(relays := v.relays) == v
    ensures Relayed(w, batch, faults).(relays := v.relays) == Relayed(v, batch, faults)
    ensures Relayed(v, batch, faults).relays == v.relays
    decreases |batch|
  {
    if batch != [] && !EnqueueThrows(w.jobs, batch[0], faults(batch[0])) {
      RelayedIgnoresRelays(w.(jobs := Enqueue(w.jobs, batch[0])), v.(jobs := Enqueue(v.jobs, batch[0])), batch[1..],
                           faults);
    }
  }

  lemma SetTwice(w: World, x: nat, i: nat, first: HandlerRun, second: HandlerRun)
    requires IsRun(w, x, i)
    ensures IsRun(SetRun(w, x, i, first), x, i)
    ensures SetRun(SetRun(w, x, i, first), x, i, second) == SetRun(w, x, i, second)
  {
    assert w.executions[x].runs[i := first][i := second] == w.executions[x].runs[i := second];
    assert w.executions[x := w.executions[x].(runs := w.executions[x].runs[i := first])]
                       [x := w.executions[x].(runs := w.executions[x].runs[i := second])] ==
           w.executions[x := w.executions[x].(runs := w.executions[x].runs[i := second])];
  }

  lemma AcquireStep(w: World, x: nat, i: nat)
    requires IsRun(w, x, i) && w.executions[x].runs[i] == Ready
    ensures Step(w, Acquire(x, i)) == if KeyOf(w, x, i) in w.keys then SetRun(w, x, i, Skipped)
                                      else SetRun(w, x, i, Running).(keys := w.keys + {KeyOf(w, x, i)})
  {
  }

  /** A run that is over takes no more steps. */
  lemma SettledIsIdle(w: World, x: nat, i: nat, a: Action)
    requires IsRun(w, x, i) && IsSettled(w.executions[x].runs[i]) && IsRunStep(a) && a.x == x && a.i == i
    ensures Step(w, a) == w
  {
  }

  lemma FinishStep(w: World, x: nat, i: nat)
    requires IsRun(w, x, i) && w.executions[x].runs[i] == Running
    ensures Step(w, Finish(x, i)) ==
              SetRun(w, x, i, Done).(finished := w.finished[KeyOf(w, x, i) := Completions(w, KeyOf(w, x, i)) + 1])
  {
  }

  lemma ThrowStep(w: World, x: nat, i: nat)
    requires IsRun(w, x, i) && w.executions[x].runs[i] == Running
    ensures Step(w, Throw(x, i)) == SetRun(w, x, i, Threw(true))
  {
  }

  lemma ReleaseStep(w: World, x: nat, i: nat)
    requires IsRun(w, x, i) && w.executions[x].runs[i] == Threw(true)
    ensures Step(w, Release(x, i)) == SetRun(w, x, i, Threw(false)).(keys := w.keys - {KeyOf(w, x, i)})
    ensures Step(w, ReleaseFails(x, i)) == SetRun(w, x, i, Threw(false)).(lost := w.lost + {KeyOf(w, x, i)})
  {
  }

  /** A handler call is a run of the model. */
  lemma HandledBySteps(w: World, x: nat, i: nat, outcome: Outcome)
    requires IsRun(w, x, i) && w.executions[x].runs[i] == Ready
    ensures After(w, HandlerSteps(x, i, outcome)) == Handled(w, x, i, outcome)
  {
    if outcome.StoreFails? {
      AfterOne(w, AcquireFails(x, i, outcome.taken));
    } else if KeyOf(w, x, i) in w.keys {
      SkippedBySteps(w, x, i, outcome);
    } else {
      CalledBySteps(w, x, i, outcome);
    }
  }

  lemma SkippedBySteps(w: World, x: nat, i: nat, outcome: Outcome)
    requires IsRun(w, x, i) && w.executions[x].runs[i] == Ready && KeyOf(w, x, i) in w.keys && !outcome.StoreFails?
    ensures After(w, HandlerSteps(x, i, outcome)) == SetRun(w, x, i, Skipped)
  {
    AcquireStep(w, x, i);
    var v := SetRun(w, x, i, Skipped);
    SetTwice(w, x, i, Skipped, Skipped);
    match outcome
    case Succeeds =>
      StepsOfTwo(w, Acquire(x, i), Finish(x, i));
      SettledIsIdle(v, x, i, Finish(x, i));
    case Throws =>
      StepsOfThree(w, Acquire(x, i), Throw(x, i), Release(x, i));
      SettledIsIdle(v, x, i, Throw(x, i));
      SettledIsIdle(v, x, i, Release(x, i));
    case ThrowsAndKeepsKey =>
      StepsOfThree(w, Acquire(x, i), Throw(x, i), ReleaseFails(x, i));
      SettledIsIdle(v, x, i, Throw(x, i));
      SettledIsIdle(v, x, i, ReleaseFails(x, i));
  }

  lemma CalledBySteps(w: World, x: nat, i: nat, outcome: Outcome)
    requires IsRun(w, x, i) && w.executions[x].runs[i] == Ready && KeyOf(w, x, i) !in w.keys && !outcome.StoreFails?
    ensures After(w, HandlerSteps(x, i, outcome)) == Handled(w, x, i, outcome)
  {
    AcquireStep(w, x, i);
    var v := SetRun(w, x, i, Running).(keys := w.keys + {KeyOf(w, x, i)});
    var steps := HandlerSteps(x, i, outcome);
    if outcome.Succeeds? {
      StepsOfTwo(w, Acquire(x, i), Finish(x, i));
      SucceededStep(w, v, x, i);
    } else {
      StepsOfThree(w, Acquire(x, i), Throw(x, i), steps[2]);
      ThrownSteps(w, v, x, i, steps[2]);
    }
  }

  /** `v` is `w` with the key taken for run `i`. */
  predicate TookKey(w: World, v: World, x: nat, i: nat) {
    && IsRun(w, x, i) && KeyOf(w, x, i) !in w.keys
    && v == SetRun(w, x, i, Running).(keys := w.keys + {KeyOf(w, x, i)})
  }

  lemma SucceededStep(w: World, v: World, x: nat, i: nat)
    requires TookKey(w, v, x, i)
    ensures Step(v, Finish(x, i)) == Handled(w, x, i, Succeeds)
  {
    SetTwice(w, x, i, Running, Done);
    FinishStep(v, x, i);
  }

  lemma ThrownSteps(w: World, v: World, x: nat, i: nat, last: Action)
    requires TookKey(w, v, x, i) && (last == Release(x, i) || last == ReleaseFails(x, i))
    ensures Step(Step(v, Throw(x, i)), last) == Handled(w, x, i, if last.Release? then Throws else ThrowsAndKeepsKey)
  {
    ThrowStep(v, x, i);
    var u := SetRun(v, x, i, Threw(true));
    SetTwice(v, x, i, Threw(true), Threw(false));
    SetTwice(w, x, i, Running, Threw(false));
    ReleaseStep(u, x, i);
    assert v.keys - {KeyOf(w, x, i)} == w.keys;
  }

  lemma HandledSetsRun(w: World, x: nat, i: nat, outcome: Outcome)
    requires IsRun(w, x, i)
    ensures var v := Handled(w, x, i, outcome);
            x in v.executions
            && v.executions[x].runs == w.executions[x].runs[i := Settled(outcome, KeyOf(w, x, i) in w.keys)]
  {
  }

  /** Of `runs` the first `n` have settled and the others are as in `before`. */
  predicate SettledUpTo(before: seq<HandlerRun>, runs: seq<HandlerRun>, n: nat) {
    && n <= |runs| == |before|
    && (forall i :: 0 <= i < n ==> IsSettled(runs[i]))
    && (forall i :: n <= i < |runs| ==> runs[i] == before[i])
  }

  lemma SettleNext(before: seq<HandlerRun>, runs: seq<HandlerRun>, n: nat, run: HandlerRun)
    requires SettledUpTo(before, runs, n) && n < |runs| && IsSettled(run)
    ensures SettledUpTo(before, runs[n := run], n + 1)
  {
  }

  /** Only the first `n` runs change, and each of them settles. */
  lemma {:induction false} HandledRuns(w: World, x: nat, outcomes: seq<Outcome>, n: nat)
    requires IsWhole(w, x) && n <= |outcomes| == |w.executions[x].runs|
    ensures SettledUpTo(w.executions[x].runs, HandledUpTo(w, x, outcomes, n).executions[x].runs, n)
  {
    if n != 0 {
      HandledRuns(w, x, outcomes, n - 1);
      HandledKeepsSettling(HandledUpTo(w, x, outcomes, n - 1), x, n - 1, outcomes[n - 1], w.executions[x].runs);
    }
  }

  lemma HandledKeepsSettling(v: World, x: nat, i: nat, outcome: Outcome, before: seq<HandlerRun>)
    requires IsRun(v, x, i) && SettledUpTo(before, v.executions[x].runs, i)
    ensures var next := Handled(v, x, i, outcome);
            x in next.executions && SettledUpTo(before, next.executions[x].runs, i + 1)
  {
    HandledSetsRun(v, x, i, outcome);
    SettleNext(before, v.executions[x].runs, i, Settled(outcome, KeyOf(v, x, i) in v.keys));
  }

  lemma NextHandled(w: World, x: nat, outcomes: seq<Outcome>, n: nat)
    requires IsWhole(w, x) && n < |outcomes| == |w.executions[x].runs| && w.executions[x].runs[n] == Ready
    ensures After(HandledUpTo(w, x, outcomes, n), HandlerSteps(x, n, outcomes[n])) == HandledUpTo(w, x, outcomes, n + 1)
  {
    var v := HandledUpTo(w, x, outcomes, n);
    HandledRuns(w, x, outcomes, n);
    HandledBySteps(v, x, n, outcomes[n]);
  }

  /** A dispatch is a run of the model. */
  lemma DispatchedBySteps(w: World, x: nat, outcomes: seq<Outcome>)
    requires IsWhole(w, x) && |outcomes| == |w.executions[x].runs|
    requires forall i :: 0 <= i < |outcomes| ==> w.executions[x].runs[i] == Ready
    ensures After(w, Flatten(DispatchSteps(x, outcomes))) == HandledUpTo(w, x, outcomes, |outcomes|)
  {
    var worlds := seq(|outcomes| + 1, i requires 0 <= i <= |outcomes| => HandledUpTo(w, x, outcomes, i));
    var runs := DispatchSteps(x, outcomes);
    forall i | 0 <= i < |runs|
      ensures After(worlds[i], runs[i]) == worlds[i + 1]
    {
      NextHandled(w, x, outcomes, i);
    }
    AfterFlatten(worlds, runs);
  }

  /** A handler that ran to its end has completed under its key, and one that was skipped found its
      key in the store. */
  lemma HandledMeans(w: World, x: nat, i: nat, outcome: Outcome)
    requires IsRun(w, x, i)
    ensures var v := Handled(w, x, i, outcome);
            var k := KeyOf(w, x, i);
            && (v.executions[x].runs[i] == Done ==> k in v.keys && Completions(v, k) == Completions(w, k) + 1)
            && (v.executions[x].runs[i] != Done ==> v.finished == w.finished)
            && (v.executions[x].runs[i] == Skipped ==> k in w.keys && v.keys == w.keys)
            && (outcome.Throws? ==> v.keys == w.keys)
  {
  }

  class Outbox {
    var now: int
    var rows: map<Id, Row>
    var nextId: Id
    var jobs: map<Id, Job>
    var keys: set<HandlerKey>
    var executions: map<nat, Execution>
    ghost var relays: map<nat, seq<Id>>
    ghost var failures: set<Id>
    ghost var finished: map<HandlerKey, nat>
    ghost var lost: set<HandlerKey>

    constructor (now: int)
      ensures Current() == Empty(now)
    {
      this.now, rows, nextId, jobs, keys, executions := now, map[], 1, map[], {}, map[];
      relays, failures, finished, lost := map[], {}, map[], {};
    }

    ghost function Current(): World
      reads this
    {
      World(now, rows, nextId, relays, jobs, failures, executions, keys, finished, lost)
    }

    // ---------- The outbox table ----------

    method Append(handlers: seq<string>) returns (id: Id)
      modifies this
      ensures Current() == Step(old(Current()), OutboxModel.Append(handlers))
      ensures id == old(nextId) && id in PendingIds(rows)
    {
      id := nextId;
      rows := rows[id := Row(handlers, None, false)];
      nextId := nextId + 1;
    }

    /** The oldest rows that are neither processed nor dispatched nor locked by others, at most `limit`
        of them. */
    method ClaimPendingBatch(limit: nat, locked: set<Id>) returns (batch: seq<Id>)
      modifies this`rows
      ensures batch == SmallestFirst(PendingIds(old(rows)) - locked, limit)
      ensures batch != [] && limit <= BATCH_SIZE ==> IsBatch(old(rows), batch)
      ensures PendingIds(rows) == PendingIds(old(rows)) - set id | id in batch
      ensures rows == OutboxModel.Dispatch(old(rows), batch, now)
      ensures forall id :: id in batch ==> id in rows && rows[id].dispatchedAt == Some(now) && !rows[id].processed
      ensures forall id :: id in rows && id !in batch ==> id in old(rows) && rows[id] == old(rows)[id]
    {
      ClaimedSpec(rows, locked, limit, now);
      DispatchedAreStamped(rows, SmallestFirst(PendingIds(rows) - locked, limit), now);
      batch := SmallestFirst(PendingIds(rows) - locked, limit);
      if batch != [] {
        rows := map id | id in rows :: if id in batch then rows[id].(dispatchedAt := Some(now)) else rows[id];
      }
    }

    method ClearDispatched(id: Id)
      modifies this`rows
      ensures rows == OutboxModel.ClearDispatched(old(rows), id)
      ensures PendingIds(rows) == PendingIds(old(rows)) + if id in rows && !rows[id].processed then {id} else {}
      ensures forall other :: other in rows && other != id ==> other in old(rows) && rows[other] == old(rows)[other]
    {
      ClearedIsPending(rows, id);
      if id in rows {
        rows := rows[id := rows[id].(dispatchedAt := None)];
      }
    }

    /** A row that is processed already keeps its first processing. */
    method MarkProcessed(id: Id)
      modifies this`rows
      ensures rows == SetProcessed(old(rows), id)
      ensures id in rows ==> rows[id].processed
      ensures forall other :: other in rows && other != id ==> other in old(rows) && rows[other] == old(rows)[other]
    {
      if id in rows && !rows[id].processed {
        rows := rows[id := rows[id].(processed := true)];
      } else if id in rows {
        assert rows[id := rows[id].(processed := true)] == rows;
      }
    }

    method ReclaimStuckDispatched()
      modifies this`rows
      ensures Current() == Step(old(Current()), Reclaim)
      ensures PendingIds(rows) == PendingIds(old(rows)) + StuckIds(old(rows), now)
    {
      StuckAreReclaimed(rows, now);
      var cutoff := now - STUCK_AFTER_MS;
      rows := map id | id in rows ::
        if !rows[id].processed && rows[id].dispatchedAt.Some? && rows[id].dispatchedAt.value < cutoff
        then rows[id].(dispatchedAt := None) else rows[id];
    }

    // ---------- The relay ----------

    /** A live job is left as it is; otherwise the event has one new waiting job, unless the queue
        fails. */
    method EnqueueDomainEvent(id: Id, fault: Fault) returns (threw: bool)
      modifies this`jobs
      ensures threw <==> EnqueueThrows(old(jobs), id, fault)
      ensures jobs == Enqueued(old(jobs), id, fault)
      ensures forall other :: other in old(jobs) && other != id ==> other in jobs && jobs[other] == old(jobs)[other]
      ensures id in old(jobs) && !old(jobs)[id].state.Completed? && !old(jobs)[id].state.Failed? ==> jobs == old(jobs)
      ensures !threw && !(id in old(jobs) && !old(jobs)[id].state.Completed? && !old(jobs)[id].state.Failed?) ==>
                id in jobs && jobs[id] == Job(Waiting, 0)
    {
      if fault.LookupFails? {
        return true;
      }
      ghost var before := jobs;
      if id in jobs {
        if jobs[id].state == Completed || jobs[id].state == Failed {
          jobs := jobs - {id};
        } else {
          return false;
        }
      }
      assert jobs == before - {id};
      if fault.AddFails? {
        return true;
      }
      jobs := jobs[id := Job(Waiting, 0)];
      assert jobs == before[id := Job(Waiting, 0)];
      return false;
    }

    /** One relay job. If it throws, the event that failed is pending again, and the events behind it
        wait to be reclaimed. */
    method RelayBatch(faults: Id -> Fault, locked: set<Id>) returns (batch: seq<Id>, relayed: nat, threw: bool)
      modifies this`rows, this`jobs
      ensures batch == SmallestFirst(PendingIds(old(rows)) - locked, BATCH_SIZE)
      ensures batch == [] || IsBatch(old(rows), batch)
      ensures relayed <= |batch| <= 50 && (threw <==> relayed < |batch|)
      ensures threw ==> PendingIds(rows) == PendingIds(old(rows)) - (set id | id in batch) + {batch[relayed]}
      ensures !threw ==> PendingIds(rows) == PendingIds(old(rows)) - set id | id in batch
      ensures Current() == Relayed(old(Current()).(rows := OutboxModel.Dispatch(old(rows), batch, now)), batch, faults)
      ensures rows == if threw
                      then OutboxModel.ClearDispatched(OutboxModel.Dispatch(old(rows), batch, now), batch[relayed])
                      else OutboxModel.Dispatch(old(rows), batch, now)
    {
      batch := ClaimPendingBatch(BATCH_SIZE, locked);
      relayed := 0;
      ghost var claimed := rows;
      ghost var goal := Relayed(Current(), batch, faults);
      while relayed < |batch|
        invariant relayed <= |batch|
        invariant goal == Relayed(Current(), batch[relayed..], faults)
        invariant rows == claimed
      {
        var id := batch[relayed];
        assert batch[relayed..][0] == id && batch[relayed..][1..] == batch[relayed + 1..];
        var failed := EnqueueDomainEvent(id, faults(id));
        if failed {
          assert id in batch;
          ClearDispatched(id);
          return batch, relayed, true;
        }
        relayed := relayed + 1;
      }
      return batch, relayed, false;
    }

    // ---------- Handlers ----------

    method SetIfNotExists(key: HandlerKey) returns (acquired: bool)
      modifies this`keys
      ensures acquired <==> key !in old(keys)
      ensures keys == old(keys) + {key}
    {
      acquired := key !in keys;
      keys := keys + {key};
    }

    method SetRunTo(x: nat, i: nat, run: HandlerRun)
      requires IsRun(Current(), x, i)
      modifies this`executions
      ensures Current() == SetRun(old(Current()), x, i, run)
    {
      var e := executions[x];
      executions := executions[x := e.(runs := e.runs[i := run])];
    }

    /** The handler runs if and only if nobody holds its key or has left it behind. It throws on
        after it has given the key back. */
    method RunOnce(x: nat, i: nat, outcome: Outcome) returns (threw: bool)
      requires IsRun(Current(), x, i)
      modifies this`keys, this`executions, this`finished, this`lost
      ensures Current() == Handled(old(Current()), x, i, outcome)
      ensures IsRun(Current(), x, i) && (threw <==> executions[x].runs[i].Threw?)
    {
      ghost var w := Current();
      var key := (executions[x].event, rows[executions[x].event].handlers[i]);
      if outcome.StoreFails? {
        SetRunTo(x, i, Threw(false));
        if outcome.taken && key !in keys {
          keys := keys + {key};
          lost := lost + {key};
        }
        return true;
      }
      var acquired := SetIfNotExists(key);
      if !acquired {
        assert keys == w.keys;
        SetRunTo(x, i, Skipped);
        return false;
      }
      threw := CallHandler(w, x, i, key, outcome);
    }

    /** The handler is called with its key taken, which was free in `w`; if it throws, the key is given
        back. */
    method CallHandler(ghost w: World, x: nat, i: nat, key: HandlerKey, outcome: Outcome) returns (threw: bool)
      requires IsRun(w, x, i) && !outcome.StoreFails?
      requires key == KeyOf(w, x, i) && key !in w.keys && Current() == w.(keys := w.keys + {key})
      modifies this`keys, this`executions, this`finished, this`lost
      ensures threw <==> !outcome.Succeeds?
      ensures keys == if outcome.Throws? then old(keys) - {key} else old(keys)
      ensures Current() == Handled(w, x, i, outcome)
      ensures IsRun(Current(), x, i) && (threw <==> executions[x].runs[i].Threw?)
    {
      if outcome.Succeeds? {
        finished := finished[key := Completions(Current(), key) + 1];
        SetRunTo(x, i, Done);
        return false;
      }
      SetRunTo(x, i, Threw(false));
      if outcome.Throws? {
        keys := keys - {key};
        assert keys == w.keys;
      } else {
        lost := lost + {key};
      }
      return true;
    }

    /** All handlers are called, whatever the others do; the dispatch throws if one of them did. */
    method Dispatch(x: nat, outcomes: seq<Outcome>) returns (threw: bool)
      requires IsWhole(Current(), x) && |outcomes| == |executions[x].runs|
      modifies this`keys, this`executions, this`finished, this`lost
      ensures Current() == HandledUpTo(old(Current()), x, outcomes, |outcomes|)
      ensures x in executions && executions[x].event == old(executions[x].event) && AllSettled(executions[x].runs)
      ensures threw <==> AnyThrew(executions[x].runs)
    {
      ghost var w := Current();
      var n := |executions[x].runs|;
      var results := [];
      for i := 0 to n
        invariant Current() == HandledUpTo(w, x, outcomes, i)
        invariant |results| == i && forall k :: 0 <= k < i ==> results[k] == executions[x].runs[k].Threw?
      {
        HandledRuns(w, x, outcomes, i);
        ghost var v := Current();
        var failed := RunOnce(x, i, outcomes[i]);
        HandledSetsRun(v, x, i, outcomes[i]);
        results := results + [failed];
      }
      HandledRuns(w, x, outcomes, n);
      threw := false;
      for i := 0 to n
        invariant forall k :: 0 <= k < i ==> !results[k]
      {
        if results[i] {
          assert executions[x].runs[i].Threw?;
          return true;
        }
      }
    }

    // ---------- The worker ----------

    /** One attempt of a job: the row is marked exactly if no handler threw. An attempt that throws
        leaves the row as it was. */
    method Process(x: nat, outcomes: seq<Outcome>) returns (threw: bool)
      requires IsWhole(Current(), x) && |outcomes| == |executions[x].runs|
      modifies this`rows, this`keys, this`executions, this`finished, this`lost
      ensures Current() == Step(HandledUpTo(old(Current()), x, outcomes, |outcomes|), Action.MarkProcessed(x))
      ensures rows == if threw then old(rows) else SetProcessed(old(rows), old(executions[x].event))
      ensures x in executions && (threw <==> AnyThrew(executions[x].runs))
    {
      threw := Dispatch(x, outcomes);
      if !threw {
        MarkProcessed(executions[x].event);
        executions := executions[x := executions[x].(marked := true)];
      }
    }

    /** The listener of failed jobs puts the row back once all attempts are used up. */
    method OnFailed(id: Id, attemptsMade: nat)
      requires MAX_ATTEMPTS <= attemptsMade ==> id in failures
      modifies this`rows, this`failures
      ensures Current() == if MAX_ATTEMPTS <= attemptsMade then Step(old(Current()), Listen(id)) else old(Current())
      ensures attemptsMade < 5 ==> rows == old(rows)
      ensures 5 <= attemptsMade && id in rows && !rows[id].processed ==> id in PendingIds(rows)
    {
      if attemptsMade < MAX_ATTEMPTS {
        return;
      }
      ClearDispatched(id);
      failures := failures - {id};
    }
  }

  // ---------- The registry ----------

  /** What the factories name for a payload, in order of registration. */
  function Names<P>(factories: seq<P -> seq<string>>, payload: P): seq<string> {
    if factories == [] then []
    else Names(factories[..|factories| - 1], payload) + factories[|factories| - 1](payload)
  }

  class HandlerRegistry<P(!new)> {
    var factories: map<string, seq<P -> seq<string>>>

    constructor ()
      ensures factories == map[]
    {
      factories := map[];
    }

    function Registered(eventType: string): seq<P -> seq<string>>
      reads this
    {
      if eventType in factories then factories[eventType] else []
    }

    /** Later registrations add handlers behind those of their own event type, and no others. */
    method Register(eventType: string, factory: P -> seq<string>)
      modifies this
      ensures forall payload :: Names(Registered(eventType), payload) ==
                                old(Names(Registered(eventType), payload)) + factory(payload)
      ensures forall other :: other != eventType ==> Registered(other) == old(Registered(other))
    {
      ghost var existing := Registered(eventType);
      factories := factories[eventType := Registered(eventType) + [factory]];
      assert Registered(eventType)[..|existing|] == existing;
    }

    /** Every handler comes wrapped in its once-only key: the event and the handler's name. */
    method Resolve(eventType: string, payload: P, outboxEventId: Id) returns (handlers: seq<HandlerKey>)
      ensures |handlers| == |Names(Registered(eventType), payload)|
      ensures forall i :: 0 <= i < |handlers| ==>
                handlers[i] == (outboxEventId, Names(Registered(eventType), payload)[i])
    {
      var names := [];
      var listed := Registered(eventType);
      for i := 0 to |listed|
        invariant names == Names(listed[..i], payload)
      {
        assert listed[..i + 1][..i] == listed[..i];
        names := names + listed[i](payload);
      }
      assert listed[..|listed|] == listed;
      handlers := seq(|names|, i requires 0 <= i < |names| => (outboxEventId, names[i]));
    }
  }
}
