/** The transactional outbox as a step system over three stores: the outbox rows, the jobs of the
    domain-event queue, and the once-only keys of the handlers. Relays and workers run
    concurrently; each step below is atomic. */
module OutboxModel {
  import opened Domain

  const BATCH_SIZE := 50
  const MAX_ATTEMPTS := 5
  const STUCK_AFTER_MS := 5 * 60 * 1000

  /** `handlers` are the names that the registry resolves for the event; names may repeat. */
  datatype Row = Row(handlers: seq<string>, dispatchedAt: Option<int>, processed: bool)

  datatype JobState = Waiting | Active | Delayed | Completed | Failed

  datatype Job = Job(state: JobState, attempts: nat)

  /** One handler within one execution of a job. A handler that threw holds its key until the
      key is deleted. */
  datatype HandlerRun = Ready | Running | Done | Skipped | Threw(holdsKey: bool)

  datatype Execution = Execution(event: Id, runs: seq<HandlerRun>, marked: bool)

  /** Event and handler name. */
  type HandlerKey = (Id, string)

  /** `relays` are the claimed batches still being enqueued; `failures` the listeners of jobs that
      exhausted their attempts, not run yet. `finished` and `lost` are history: how often a
      handler completed under a key, and the keys left behind: their holder died, or the key store
      failed while it took or deleted them. */
  datatype World = World(
    now: int,
    rows: map<Id, Row>,
    nextId: Id,
    relays: map<nat, seq<Id>>,
    jobs: map<Id, Job>,
    failures: set<Id>,
    executions: map<nat, Execution>,
    keys: set<HandlerKey>,
    finished: map<HandlerKey, nat>,
    lost: set<HandlerKey>)

  datatype Action =
    | Append(handlers: seq<string>)
    | Advance(instant: int)
    | Claim(relay: nat, batch: seq<Id>)
    | Relay(relay: nat)
    | RelaySkips(relay: nat)
    | RelayFails(relay: nat)
    | RelayEnds(relay: nat)
    | Reclaim
    | Begin(id: Id, x: nat)
    | Duplicate(id: Id, x: nat)
    | Acquire(x: nat, i: nat)
    | AcquireFails(x: nat, i: nat, taken: bool)
    | Finish(x: nat, i: nat)
    | Throw(x: nat, i: nat)
    | Release(x: nat, i: nat)
    | ReleaseFails(x: nat, i: nat)
    | MarkProcessed(x: nat)
    | CompleteJob(x: nat)
    | FailJob(x: nat)
    | Retry(id: Id)
    | Listen(id: Id)
    | ListenerDies(id: Id)
    | Evict(id: Id)
    | Die(x: nat, toFailed: bool)

  // ---------- The outbox table ----------

  function PendingIds(rows: map<Id, Row>): set<Id> {
    set id | id in rows && !rows[id].processed && rows[id].dispatchedAt.None?
  }

  /** At most `n` of the ids, the smallest ones first. */
  function SmallestFirst(ids: set<Id>, n: nat): seq<Id>
    decreases n
  {
    if n == 0 || ids == {} then []
    else
      var least := Least(ids);
      [least] + SmallestFirst(ids - {least}, n - 1)
  }

  /** What a claim can come by. The query asks for the smallest pending ids, but it skips rows that
      others have locked, and their transactions may yet roll back. */
  predicate IsBatch(rows: map<Id, Row>, batch: seq<Id>) {
    && 0 < |batch| <= BATCH_SIZE
    && Distinct(batch)
    && forall id :: id in batch ==> id in PendingIds(rows)
  }

  function Dispatch(rows: map<Id, Row>, ids: seq<Id>, now: int): map<Id, Row> {
    map id | id in rows :: if id in ids then rows[id].(dispatchedAt := Some(now)) else rows[id]
  }

  function ClearDispatched(rows: map<Id, Row>, id: Id): map<Id, Row> {
    if id in rows then rows[id := rows[id].(dispatchedAt := None)] else rows
  }

  function SetProcessed(rows: map<Id, Row>, id: Id): map<Id, Row> {
    if id in rows then rows[id := rows[id].(processed := true)] else rows
  }

  predicate IsStuck(row: Row, now: int) {
    !row.processed && row.dispatchedAt.Some? && row.dispatchedAt.value < now - STUCK_AFTER_MS
  }

  function ReclaimStuck(rows: map<Id, Row>, now: int): map<Id, Row> {
    map id | id in rows :: if IsStuck(rows[id], now) then rows[id].(dispatchedAt := None) else rows[id]
  }

  /** Clearing an unprocessed row makes it pending, and no other one. */
  lemma ClearedIsPending(rows: map<Id, Row>, id: Id)
    ensures PendingIds(ClearDispatched(rows, id)) ==
              if id in rows && !rows[id].processed then PendingIds(rows) + {id} else PendingIds(rows)
    ensures ClearDispatched(rows, id).Keys == rows.Keys
    ensures forall other :: other in rows && other != id ==> ClearDispatched(rows, id)[other] == rows[other]
    ensures id in rows ==>
              var row := ClearDispatched(rows, id)[id];
              row.dispatchedAt == None && row.processed == rows[id].processed && row.handlers == rows[id].handlers
  {
  }

  /** Dispatched rows carry the instant and are pending no more. */
  lemma DispatchedAreStamped(rows: map<Id, Row>, ids: seq<Id>, now: int)
    ensures PendingIds(Dispatch(rows, ids, now)) == PendingIds(rows) - set id | id in ids
    ensures Dispatch(rows, ids, now).Keys == rows.Keys
    ensures forall id :: id in rows && id in ids ==>
              var row := Dispatch(rows, ids, now)[id];
              row.dispatchedAt == Some(now) && row.processed == rows[id].processed && row.handlers == rows[id].handlers
    ensures forall id :: id in rows && id !in ids ==> Dispatch(rows, ids, now)[id] == rows[id]
  {
  }

  lemma ProcessedIsMarked(rows: map<Id, Row>, id: Id)
    requires id in rows
    ensures SetProcessed(rows, id).Keys == rows.Keys
    ensures forall other :: other in rows && other != id ==> SetProcessed(rows, id)[other] == rows[other]
    ensures var row := SetProcessed(rows, id)[id];
            row.processed && row.dispatchedAt == rows[id].dispatchedAt && row.handlers == rows[id].handlers
  {
  }

  /** Reclaiming frees the unprocessed rows that were dispatched more than five minutes ago, and leaves
      all others. */
  lemma StuckAreReclaimed(rows: map<Id, Row>, now: int)
    ensures PendingIds(ReclaimStuck(rows, now)) == PendingIds(rows) + StuckIds(rows, now)
    ensures ReclaimStuck(rows, now).Keys == rows.Keys
    ensures forall id :: id in rows && id !in StuckIds(rows, now) ==> ReclaimStuck(rows, now)[id] == rows[id]
    ensures forall id :: id in StuckIds(rows, now) ==>
              ReclaimStuck(rows, now)[id] == Row(rows[id].handlers, None, false)
  {
  }

  function StuckIds(rows: map<Id, Row>, now: int): set<Id> {
    set id | id in rows && !rows[id].processed && rows[id].dispatchedAt.Some?
             && rows[id].dispatchedAt.value + 300_000 < now
  }

  // ---------- The queue ----------

  predicate IsLive(jobs: map<Id, Job>, id: Id) {
    id in jobs && (jobs[id].state == Waiting || jobs[id].state == Active || jobs[id].state == Delayed)
  }

  /** A live job is left alone; a completed or failed one is removed and replaced. */
  function Enqueue(jobs: map<Id, Job>, id: Id): map<Id, Job> {
    if IsLive(jobs, id) then jobs else jobs[id := Job(Waiting, 0)]
  }

  /** The job whose execution just ended leaves the active state; a job that a duplicate
      execution already moved on stays where it is. */
  function Leave(jobs: map<Id, Job>, id: Id, next: Job): map<Id, Job> {
    if id in jobs && jobs[id].state == Active then jobs[id := next] else jobs
  }

  function Attempts(jobs: map<Id, Job>, id: Id): nat {
    if id in jobs then jobs[id].attempts else 0
  }

  /** A job that waits, is at work or is delayed stays as it is; otherwise there is a new one, which has
      not been attempted yet. */
  lemma EnqueuedIsLive(jobs: map<Id, Job>, id: Id)
    ensures var after := Enqueue(jobs, id);
            && (forall other :: other in after && other != id <==> other in jobs && other != id)
            && (forall other :: other in jobs && other != id ==> after[other] == jobs[other])
            && id in after
            && (if id in jobs && !jobs[id].state.Completed? && !jobs[id].state.Failed? then after[id] == jobs[id]
                else after[id] == Job(Waiting, 0))
  {
  }

  // ---------- Handlers ----------

  predicate IsRun(w: World, x: nat, i: nat) {
    && x in w.executions && i < |w.executions[x].runs|
    && w.executions[x].event in w.rows
    && i < |w.rows[w.executions[x].event].handlers|
  }

  function KeyOf(w: World, x: nat, i: nat): HandlerKey
    requires IsRun(w, x, i)
  {
    (w.executions[x].event, w.rows[w.executions[x].event].handlers[i])
  }

  predicate HoldsKey(run: HandlerRun) {
    run == Running || run == Threw(true)
  }

  predicate IsSettled(run: HandlerRun) {
    run == Done || run == Skipped || run == Threw(false)
  }

  predicate AllSettled(runs: seq<HandlerRun>) {
    forall i :: 0 <= i < |runs| ==> IsSettled(runs[i])
  }

  predicate AnyThrew(runs: seq<HandlerRun>) {
    exists i :: 0 <= i < |runs| && runs[i].Threw?
  }

  function SetRun(w: World, x: nat, i: nat, run: HandlerRun): World
    requires IsRun(w, x, i)
  {
    var e := w.executions[x];
    w.(executions := w.executions[x := e.(runs := e.runs[i := run])])
  }

  function Completions(w: World, k: HandlerKey): nat {
    if k in w.finished then w.finished[k] else 0
  }

  function HeldKeys(w: World, x: nat): set<HandlerKey>
    requires x in w.executions
  {
    set i | 0 <= i < |w.executions[x].runs| && IsRun(w, x, i) && HoldsKey(w.executions[x].runs[i]) :: KeyOf(w, x, i)
  }

  // ---------- Steps ----------

  /** Steps of one handler within an execution. */
  predicate IsRunStep(a: Action) {
    a.Acquire? || a.AcquireFails? || a.Finish? || a.Throw? || a.Release? || a.ReleaseFails?
  }

  /** Steps of a whole execution. */
  predicate IsExecutionStep(a: Action) {
    a.Begin? || a.Duplicate? || a.MarkProcessed? || a.CompleteJob? || a.FailJob? || a.Die?
  }

  /** A step that is not enabled leaves the world as it is. */
  function Step(w: World, a: Action): World {
    if IsRunStep(a) then RunStep(w, a)
    else if IsExecutionStep(a) then ExecutionStep(w, a)
    else TableStep(w, a)
  }

  /** A relay looks a job up, removes it if it is finished, and adds a new one. When two relays hold
      the same event these calls interleave: `Evict` removes any job but an active one, as the removal
      may have been decided on before, and `RelaySkips` is an addition that finds a job there. The
      queue also evicts finished jobs by itself. `RelayEnds` is the end of a relay, with its batch done
      or not. */
  function TableStep(w: World, a: Action): World
    requires !IsRunStep(a) && !IsExecutionStep(a)
  {
    match a
    case Append(handlers) =>
      w.(rows := w.rows[w.nextId := Row(handlers, None, false)], nextId := w.nextId + 1)
    case Advance(instant) =>
      if w.now <= instant then w.(now := instant) else w
    case Claim(r, batch) =>
      if r in w.relays || !IsBatch(w.rows, batch) then w
      else w.(rows := Dispatch(w.rows, batch, w.now), relays := w.relays[r := batch])
    case Relay(r) =>
      if r !in w.relays || w.relays[r] == [] then w
      else w.(jobs := Enqueue(w.jobs, w.relays[r][0]), relays := w.relays[r := w.relays[r][1..]])
    case RelaySkips(r) =>
      if r !in w.relays || w.relays[r] == [] || w.relays[r][0] !in w.jobs then w
      else w.(relays := w.relays[r := w.relays[r][1..]])
    case RelayFails(r) =>
      if r !in w.relays || w.relays[r] == [] then w
      else w.(rows := ClearDispatched(w.rows, w.relays[r][0]), relays := w.relays - {r})
    case RelayEnds(r) =>
      w.(relays := w.relays - {r})
    case Reclaim =>
      w.(rows := ReclaimStuck(w.rows, w.now))
    case Retry(id) =>
      if id !in w.jobs || w.jobs[id].state != Delayed then w
      else w.(jobs := w.jobs[id := w.jobs[id].(state := Waiting)])
    case Listen(id) =>
      if id !in w.failures then w
      else w.(failures := w.failures - {id}, rows := ClearDispatched(w.rows, id))
    case ListenerDies(id) =>
      w.(failures := w.failures - {id})
    case Evict(id) =>
      if id !in w.jobs || w.jobs[id].state == Active then w else w.(jobs := w.jobs - {id})
  }

  function Start(w: World, id: Id, x: nat): World
    requires id in w.rows
  {
    var runs := seq(|w.rows[id].handlers|, i => Ready);
    w.(executions := w.executions[x := Execution(id, runs, false)])
  }

  /** An execution whose handlers have settled ends in one of two ways. If none threw it can mark
      its row processed and then complete its job. The job fails when a handler threw, and also
      when marking the row throws. */
  function ExecutionStep(w: World, a: Action): World
    requires IsExecutionStep(a)
  {
    match a
    case Begin(id, x) =>
      if id !in w.rows || id !in w.jobs || w.jobs[id].state != Waiting || x in w.executions then w
      else Start(w, id, x).(jobs := w.jobs[id := w.jobs[id].(state := Active)])
    case Duplicate(id, x) =>
      if id !in w.rows || id !in w.jobs || w.jobs[id].state != Active || x in w.executions then w
      else Start(w, id, x)
    case MarkProcessed(x) =>
      if x !in w.executions || !AllSettled(w.executions[x].runs) || AnyThrew(w.executions[x].runs) then w
      else w.(rows := SetProcessed(w.rows, w.executions[x].event),
              executions := w.executions[x := w.executions[x].(marked := true)])
    case CompleteJob(x) =>
      if x !in w.executions || !w.executions[x].marked then w
      else
        var id := w.executions[x].event;
        w.(executions := w.executions - {x}, jobs := Leave(w.jobs, id, Job(Completed, Attempts(w.jobs, id) + 1)))
    case FailJob(x) =>
      if x !in w.executions || !AllSettled(w.executions[x].runs) || w.executions[x].marked then w
      else
        var id := w.executions[x].event;
        var attempts := Attempts(w.jobs, id) + 1;
        var exhausted := MAX_ATTEMPTS <= attempts;
        w.(executions := w.executions - {x},
           jobs := Leave(w.jobs, id, Job(if exhausted then Failed else Delayed, attempts)),
           failures := if exhausted then w.failures + {id} else w.failures)
    case Die(x, toFailed) =>
      if x !in w.executions then w
      else
        var id := w.executions[x].event;
        w.(executions := w.executions - {x},
           lost := w.lost + HeldKeys(w, x),
           jobs := Leave(w.jobs, id, Job(if toFailed then Failed else Waiting, Attempts(w.jobs, id))))
  }

  /** The call that takes a key may fail, before or after the key was taken; the call that deletes
      it may fail as well. */
  function RunStep(w: World, a: Action): World
    requires IsRunStep(a)
  {
    match a
    case Acquire(x, i) =>
      if !IsRun(w, x, i) || w.executions[x].runs[i] != Ready then w
      else if KeyOf(w, x, i) in w.keys then SetRun(w, x, i, Skipped)
      else SetRun(w, x, i, Running).(keys := w.keys + {KeyOf(w, x, i)})
    case AcquireFails(x, i, taken) =>
      if !IsRun(w, x, i) || w.executions[x].runs[i] != Ready then w
      else if !taken || KeyOf(w, x, i) in w.keys then SetRun(w, x, i, Threw(false))
      else SetRun(w, x, i, Threw(false)).(keys := w.keys + {KeyOf(w, x, i)}, lost := w.lost + {KeyOf(w, x, i)})
    case Finish(x, i) =>
      if !IsRun(w, x, i) || w.executions[x].runs[i] != Running then w
      else
        var k := KeyOf(w, x, i);
        SetRun(w, x, i, Done).(finished := w.finished[k := Completions(w, k) + 1])
    case Throw(x, i) =>
      if !IsRun(w, x, i) || w.executions[x].runs[i] != Running then w
      else SetRun(w, x, i, Threw(true))
    case Release(x, i) =>
      if !IsRun(w, x, i) || w.executions[x].runs[i] != Threw(true) then w
      else SetRun(w, x, i, Threw(false)).(keys := w.keys - {KeyOf(w, x, i)})
    case ReleaseFails(x, i) =>
      if !IsRun(w, x, i) || w.executions[x].runs[i] != Threw(true) then w
      else SetRun(w, x, i, Threw(false)).(lost := w.lost + {KeyOf(w, x, i)})
  }

  function After(w: World, actions: seq<Action>): World {
    if actions == [] then w else Step(After(w, actions[..|actions| - 1]), actions[|actions| - 1])
  }

  lemma AfterSnoc(w: World, actions: seq<Action>, a: Action)
    ensures After(w, actions + [a]) == Step(After(w, actions), a)
  {
    assert (actions + [a])[..|actions + [a]| - 1] == actions;
  }

  lemma {:induction false} AfterConcat(w: World, first: seq<Action>, second: seq<Action>)
    ensures After(w, first + second) == After(After(w, first), second)
  {
    if second == [] {
      assert first + second == first;
    } else {
      var front, last := second[..|second| - 1], second[|second| - 1];
      AfterConcat(w, first, front);
      assert second == front + [last];
      assert first + second == (first + front) + [last];
      AfterSnoc(w, first + front, last);
      AfterSnoc(After(w, first), front, last);
    }
  }

  lemma AfterOne(w: World, a: Action)
    ensures After(w, [a]) == Step(w, a)
  {
    assert [a][..0] == [];
    assert After(w, []) == w;
  }

  lemma AfterCons(w: World, a: Action, rest: seq<Action>)
    ensures After(w, [a] + rest) == After(Step(w, a), rest)
  {
    AfterOne(w, a);
    AfterConcat(w, [a], rest);
  }

  lemma StepsOfTwo(w: World, a: Action, b: Action)
    ensures After(w, [a, b]) == Step(Step(w, a), b)
  {
    assert [a, b] == [a] + [b];
    AfterCons(w, a, [b]);
    AfterOne(Step(w, a), b);
  }

  lemma StepsOfThree(w: World, a: Action, b: Action, c: Action)
    ensures After(w, [a, b, c]) == Step(Step(Step(w, a), b), c)
  {
    assert [a, b, c] == [a] + [b, c];
    AfterCons(w, a, [b, c]);
    StepsOfTwo(Step(w, a), b, c);
  }

  function Empty(now: int): World {
    World(now, map[], 1, map[], map[], {}, map[], {}, map[], {})
  }
}
