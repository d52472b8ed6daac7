/** Who may decide on an expense, and who may act at a given approval stage. */
module ApprovalAccess {
  import opened Domain
  import opened ApprovalRouting

  /** The permissions the services ask about; which role carries which is not modelled. */
  datatype Permission =
    | ApproveGlobally
    | RejectGlobally
    | ReimburseExpenses
    | UpdateAnyExpense
    | UpdateOwnExpense
    | DeleteAnyExpense
    | DeleteOwnExpense

  /** The authenticated caller, as the request carries it. */
  datatype AuthUser = AuthUser(id: Id, managedDepartments: set<Id>, grants: set<Permission>)

  datatype User = User(departmentId: Option<Id>, grants: set<Permission>)

  datatype Department = Department(managerId: Option<Id>, isActive: bool, isDeleted: bool)

  datatype Delegation = Delegation(delegatorId: Id, delegateId: Id, startsAt: int, endsAt: int, isActive: bool)

  predicate HasGlobalApproval(auth: AuthUser) {
    ApproveGlobally in auth.grants || RejectGlobally in auth.grants
  }

  predicate IsManagerApprover(auth: AuthUser) {
    auth.managedDepartments != {}
  }

  function OwnerDepartment(e: Expense, users: map<Id, User>): Option<Id> {
    if e.userId in users then users[e.userId].departmentId else None
  }

  function ExpenseDepartment(e: Expense, users: map<Id, User>): Option<Id> {
    if e.departmentId.Some? then e.departmentId else OwnerDepartment(e, users)
  }

  predicate ManagesExpense(auth: AuthUser, e: Expense, users: map<Id, User>) {
    var department := ExpenseDepartment(e, users);
    department.Some? && department.value in auth.managedDepartments
  }

  predicate CanDecideOnExpense(auth: AuthUser, e: Expense, users: map<Id, User>) {
    if HasGlobalApproval(auth) then true
    else if !IsManagerApprover(auth) then false
    else ManagesExpense(auth, e, users)
  }

  predicate CanActOnStage(auth: AuthUser, e: Expense, stage: Level, users: map<Id, User>) {
    && CanDecideOnExpense(auth, e, users)
    && match stage.approverType
       case DepartmentManager => ManagesExpense(auth, e, users)
       case FinanceManager => HasGlobalApproval(auth)
  }

  function ManagedDepartments(userId: Id, departments: map<Id, Department>): set<Id> {
    set d | d in departments && departments[d].managerId == Some(userId)
            && departments[d].isActive && !departments[d].isDeleted
  }

  predicate IsLive(d: Delegation, delegateId: Id, now: int) {
    d.delegateId == delegateId && d.isActive && d.startsAt <= now <= d.endsAt
  }

  predicate DelegatorCanAct(d: Delegation, e: Expense, stage: Level, users: map<Id, User>,
                            departments: map<Id, Department>)
  {
    && d.delegatorId in users
    && CanActOnStage(AuthUser(d.delegatorId, ManagedDepartments(d.delegatorId, departments),
                              users[d.delegatorId].grants),
                     e, stage, users)
  }

  predicate ActsForSomeone(auth: AuthUser, e: Expense, stage: Level, delegations: seq<Delegation>,
                           users: map<Id, User>, departments: map<Id, Department>, now: int)
  {
    exists d :: d in delegations && IsLive(d, auth.id, now) && DelegatorCanAct(d, e, stage, users, departments)
  }

  method CanActAsDelegate(auth: AuthUser, e: Expense, stage: Level, delegations: seq<Delegation>,
                          users: map<Id, User>, departments: map<Id, Department>, now: int)
    returns (allowed: bool)
    ensures allowed == ActsForSomeone(auth, e, stage, delegations, users, departments, now)
  {
    for i := 0 to |delegations|
      invariant forall k :: 0 <= k < i ==>
                  !(IsLive(delegations[k], auth.id, now)
                    && DelegatorCanAct(delegations[k], e, stage, users, departments))
    {
      if IsLive(delegations[i], auth.id, now) && DelegatorCanAct(delegations[i], e, stage, users, departments) {
        return true;
      }
    }
    return false;
  }

  predicate MayMutateDraft(auth: AuthUser, ownerId: Id, any: Permission, own: Permission) {
    any in auth.grants || (own in auth.grants && ownerId == auth.id)
  }
}
