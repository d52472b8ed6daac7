/** Who managed a department when: the open and closed entries of department_manager_history. */
module ManagerHistory {
  import opened Domain

  datatype Entry = Entry(departmentId: Id, managerId: Id, assignedBy: Option<Id>, startedAt: int, endedAt: Option<int>)

  // ---------- Specification ----------

  predicate IsOpen(e: Entry, d: Id) {
    e.departmentId == d && e.endedAt.None?
  }

  /** Every open entry of the department ends now. */
  function CloseEntries(entries: seq<Entry>, d: Id, now: int): seq<Entry> {
    seq(|entries|, i requires 0 <= i < |entries| =>
      if IsOpen(entries[i], d) then entries[i].(endedAt := Some(now)) else entries[i])
  }

  function Changed(entries: seq<Entry>, d: Id, next: Option<Id>, actor: Option<Id>, now: int): seq<Entry> {
    CloseEntries(entries, d, now) + if next.Some? then [Entry(d, next.value, actor, now, None)] else []
  }

  /** The department's current manager, None for a department that has none. */
  type Managers = map<Id, Option<Id>>

  /** Entries are well formed and in order: of two entries of one department the earlier one ended
      before the later one started; nothing lies in the future; an entry is open exactly for the
      current manager. */
  ghost predicate Sound(entries: seq<Entry>, managers: Managers, now: int) {
    && (forall i :: 0 <= i < |entries| ==> EntryOk(entries[i], managers, now))
    && (forall i, j :: 0 <= i < j < |entries| ==> EndsBefore(entries[i], entries[j]))
    && (forall d :: d in managers && managers[d].Some? ==> exists i :: 0 <= i < |entries| && IsOpen(entries[i], d))
  }

  /** Half-open, as two adjacent entries share the instant of the change. */
  predicate Covers(e: Entry, t: int) {
    e.startedAt <= t && (e.endedAt.Some? ==> t < e.endedAt.value)
  }

  /** Every entry is well formed and open exactly for the current manager. */
  predicate EntryOk(e: Entry, managers: Managers, now: int) {
    && e.departmentId in managers
    && e.startedAt <= now
    && (e.endedAt.Some? ==> e.startedAt <= e.endedAt.value <= now)
    && (e.endedAt.None? ==> managers[e.departmentId] == Some(e.managerId))
  }

  predicate EndsBefore(a: Entry, b: Entry) {
    a.departmentId == b.departmentId ==> a.endedAt.Some? && a.endedAt.value <= b.startedAt
  }

  lemma ChangedEntry(entries: seq<Entry>, d: Id, next: Option<Id>, actor: Option<Id>, now: int, i: nat)
    requires i < |Changed(entries, d, next, actor, now)|
    ensures var e := Changed(entries, d, next, actor, now)[i];
            if i < |entries| then e == if IsOpen(entries[i], d) then entries[i].(endedAt := Some(now)) else entries[i]
            else i == |entries| && next.Some? && e == Entry(d, next.value, actor, now, None)
  {
  }

  lemma ChangeKeepsEntryOk(entries: seq<Entry>, managers: Managers, d: Id, next: Option<Id>, actor: Option<Id>,
                           before: int, now: int, i: nat)
    requires Sound(entries, managers, before) && before <= now && d in managers
    requires i < |Changed(entries, d, next, actor, now)|
    ensures EntryOk(Changed(entries, d, next, actor, now)[i], managers[d := next], now)
  {
    ChangedEntry(entries, d, next, actor, now, i);
    if i < |entries| { assert EntryOk(entries[i], managers, before); }
  }

  lemma ChangeKeepsOrder(entries: seq<Entry>, managers: Managers, d: Id, next: Option<Id>, actor: Option<Id>,
                         before: int, now: int, i: nat, j: nat)
    requires Sound(entries, managers, before) && before <= now
    requires i < j < |Changed(entries, d, next, actor, now)|
    ensures EndsBefore(Changed(entries, d, next, actor, now)[i], Changed(entries, d, next, actor, now)[j])
  {
    ChangedEntry(entries, d, next, actor, now, i);
    ChangedEntry(entries, d, next, actor, now, j);
    assert EntryOk(entries[i], managers, before);
    if j < |entries| { assert EndsBefore(entries[i], entries[j]); }
  }

  lemma ChangeKeepsOpen(entries: seq<Entry>, managers: Managers, d: Id, next: Option<Id>, actor: Option<Id>,
                        before: int, now: int, other: Id)
    requires Sound(entries, managers, before)
    requires other in managers[d := next] && managers[d := next][other].Some?
    ensures var after := Changed(entries, d, next, actor, now);
            exists i :: 0 <= i < |after| && IsOpen(after[i], other)
  {
    var after := Changed(entries, d, next, actor, now);
    if other == d {
      assert IsOpen(after[|after| - 1], d);
    } else {
      var i :| 0 <= i < |entries| && IsOpen(entries[i], other);
      ChangedEntry(entries, d, next, actor, now, i);
      assert IsOpen(after[i], other);
    }
  }

  lemma ChangeKeepsSound(entries: seq<Entry>, managers: Managers, d: Id, next: Option<Id>, actor: Option<Id>,
                         before: int, now: int)
    requires Sound(entries, managers, before) && before <= now && d in managers
    ensures Sound(Changed(entries, d, next, actor, now), managers[d := next], now)
  {
    var after := Changed(entries, d, next, actor, now);
    forall i: nat | i < |after|
      ensures EntryOk(after[i], managers[d := next], now)
    {
      ChangeKeepsEntryOk(entries, managers, d, next, actor, before, now, i);
    }
    forall i: nat, j: nat | i < j < |after|
      ensures EndsBefore(after[i], after[j])
    {
      ChangeKeepsOrder(entries, managers, d, next, actor, before, now, i, j);
    }
    var updated := managers[d := next];
    forall other | other in updated && updated[other].Some?
      ensures exists i :: 0 <= i < |after| && IsOpen(after[i], other)
    {
      ChangeKeepsOpen(entries, managers, d, next, actor, before, now, other);
    }
  }

  /** At most one entry of a department is open, and it names the current manager; there is one
      exactly when there is a manager. */
  lemma OneOpenEntry(entries: seq<Entry>, managers: Managers, now: int, d: Id)
    requires Sound(entries, managers, now) && d in managers
    ensures forall i, j ::
              0 <= i < |entries| && 0 <= j < |entries| && IsOpen(entries[i], d) && IsOpen(entries[j], d) ==> i == j
    ensures managers[d].Some? <==> exists i :: 0 <= i < |entries| && IsOpen(entries[i], d)
    ensures forall i :: 0 <= i < |entries| && IsOpen(entries[i], d) ==> managers[d] == Some(entries[i].managerId)
  {
  }

  /** At any instant a department had at most one manager on record. */
  lemma EntriesDoNotOverlap(entries: seq<Entry>, managers: Managers, now: int, i: nat, j: nat, t: int)
    requires Sound(entries, managers, now) && i < |entries| && j < |entries|
    requires entries[i].departmentId == entries[j].departmentId
    requires Covers(entries[i], t) && Covers(entries[j], t)
    ensures i == j
  {
  }

  // ---------- Runs ----------

  /** `Assign` is a department update that names a manager or clears it; `seen` is the manager that
      the update had read before its transaction, possibly out of date. */
  datatype Action =
    | AddDepartment(d: Id)
    | Assign(d: Id, seen: Option<Id>, next: Option<Id>, actor: Option<Id>)
    | Release(d: Id, userId: Id, actor: Option<Id>)
    | Wait(instant: int)

  datatype Records = Records(entries: seq<Entry>, managers: Managers, now: int)

  function Apply(r: Records, a: Action): Records {
    match a
    case AddDepartment(d) => if d in r.managers then r else r.(managers := r.managers[d := None])
    case Assign(d, seen, next, actor) =>
      if d !in r.managers || next == seen then r
      else r.(entries := Changed(r.entries, d, next, actor, r.now), managers := r.managers[d := next])
    case Release(d, userId, actor) =>
      if d !in r.managers || r.managers[d] != Some(userId) then r
      else r.(entries := Changed(r.entries, d, None, actor, r.now), managers := r.managers[d := None])
    case Wait(instant) => if r.now <= instant then r.(now := instant) else r
  }

  /** An update that names a manager other than the one it had read makes that manager the current
      one from now on, and one that names nobody leaves the department without. */
  lemma AssignSpec(r: Records, d: Id, seen: Option<Id>, next: Option<Id>, actor: Option<Id>)
    requires Sound(r.entries, r.managers, r.now) && d in r.managers && next != seen
    ensures var end := Apply(r, Assign(d, seen, next, actor));
            && end.managers == r.managers[d := next] && end.now == r.now
            && (forall i :: 0 <= i < |r.entries| && IsOpen(r.entries[i], d) ==> end.entries[i].endedAt == Some(r.now))
            && (forall i :: 0 <= i < |r.entries| && !IsOpen(r.entries[i], d) ==> end.entries[i] == r.entries[i])
            && (next.Some? ==> end.entries[|r.entries|..] == [Entry(d, next.value, actor, r.now, None)])
            && (next.None? ==> |end.entries| == |r.entries|)
  {
  }

  /** A user who leaves a department stops managing it, and nobody else does. */
  lemma ReleaseSpec(r: Records, d: Id, userId: Id, actor: Option<Id>)
    requires Sound(r.entries, r.managers, r.now) && d in r.managers
    ensures var end := Apply(r, Release(d, userId, actor));
            && end.managers == (if r.managers[d] == Some(userId) then r.managers[d := None] else r.managers)
            && (r.managers[d] != Some(userId) ==> end == r)
            && (r.managers[d] == Some(userId) ==> forall i :: 0 <= i < |end.entries| ==> !IsOpen(end.entries[i], d))
  {
  }

  function After(r: Records, actions: seq<Action>): Records {
    if actions == [] then r else Apply(After(r, actions[..|actions| - 1]), actions[|actions| - 1])
  }

  lemma {:induction false} RunsStaySound(r: Records, actions: seq<Action>)
    requires Sound(r.entries, r.managers, r.now)
    ensures var end := After(r, actions); Sound(end.entries, end.managers, end.now)
    ensures r.now <= After(r, actions).now
  {
    if actions != [] {
      var front := actions[..|actions| - 1];
      RunsStaySound(r, front);
      var mid := After(r, front);
      match actions[|actions| - 1]
      case AddDepartment(d) =>
      case Assign(d, seen, next, actor) =>
        if d in mid.managers { ChangeKeepsSound(mid.entries, mid.managers, d, next, actor, mid.now, mid.now); }
      case Release(d, userId, actor) =>
        if d in mid.managers { ChangeKeepsSound(mid.entries, mid.managers, d, None, actor, mid.now, mid.now); }
      case Wait(instant) =>
    }
  }

  /** History is never rewritten: entries keep their place, manager and start, and closed ones
      their end. */
  lemma {:induction false} HistoryOnlyGrows(r: Records, actions: seq<Action>, i: nat)
    requires i < |r.entries|
    ensures var end := After(r, actions).entries;
            && i < |end|
            && end[i].(endedAt := r.entries[i].endedAt) == r.entries[i]
            && (r.entries[i].endedAt.Some? ==> end[i] == r.entries[i])
  {
    if actions != [] {
      HistoryOnlyGrows(r, actions[..|actions| - 1], i);
    }
  }

  // ---------- The services ----------

  /** Departments and their manager history. Deleted departments are out of sight. */
  class DepartmentBook {
    var entries: seq<Entry>
    var managers: Managers

    constructor ()
      ensures entries == [] && managers == map[]
    {
      entries, managers := [], map[];
    }

    method ApplyManagerChange(d: Id, next: Option<Id>, actor: Option<Id>, now: int)
      modifies this`entries
      ensures entries == Changed(old(entries), d, next, actor, now)
    {
      var closed := [];
      for i := 0 to |entries|
        invariant entries == old(entries)
        invariant |closed| == i
        invariant forall k :: 0 <= k < i ==> closed[k] == CloseEntries(entries, d, now)[k]
      {
        var e := entries[i];
        if e.departmentId == d && e.endedAt.None? {
          e := e.(endedAt := Some(now));
        }
        closed := closed + [e];
      }
      assert closed == CloseEntries(entries, d, now);
      entries := closed;
      if next.Some? {
        entries := entries + [Entry(d, next.value, actor, now, None)];
      }
    }

    /** The manager part of a department update. A manager cannot be cleared while expenses of the
        department await approval. */
    method UpdateManager(d: Id, seen: Option<Id>, next: Option<Id>, actor: Option<Id>, pendingApprovals: nat, now: int)
      returns (thrown: Option<Error>)
      requires d in managers
      modifies this
      ensures thrown == if next != seen && next.None? && 0 < pendingApprovals then Some(Conflict) else None
      ensures var r := Records(old(entries), old(managers), now);
              Records(entries, managers, now) == if thrown.Some? then r else Apply(r, Assign(d, seen, next, actor))
    {
      if next == seen {
        return None;
      }
      if next.None? && 0 < pendingApprovals {
        return Some(Conflict);
      }
      ApplyManagerChange(d, next, actor, now);
      managers := managers[d := next];
      return None;
    }

    /** Inside a caller's transaction the pending approvals are not checked. */
    method ReleaseManagerIfUserLeftDepartment(d: Id, userId: Id, actor: Option<Id>, inTransaction: bool,
                                              pendingApprovals: nat, now: int)
      returns (thrown: Option<Error>)
      modifies this
      ensures thrown == if d in old(managers) && old(managers)[d] == Some(userId)
                           && !inTransaction && 0 < pendingApprovals
                        then Some(Conflict) else None
      ensures var r := Records(old(entries), old(managers), now);
              Records(entries, managers, now) == if thrown.Some? then r else Apply(r, Release(d, userId, actor))
    {
      if d !in managers || managers[d] != Some(userId) {
        return None;
      }
      if !inTransaction && 0 < pendingApprovals {
        return Some(Conflict);
      }
      ApplyManagerChange(d, None, actor, now);
      managers := managers[d := None];
      return None;
    }
  }
}
