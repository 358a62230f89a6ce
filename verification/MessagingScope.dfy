/**
  Whose a line and a thread are, and who may read a thread
  (apps/api/src/messaging/conversation-scope.ts).
 */
module MessagingScope {
  import opened Options

  type UserId = nat
  type DepartmentId = nat

  datatype Owner = OwnedByUser(user: UserId) | OwnedByDepartment(department: DepartmentId)

  /** The two owner columns of a line or a thread. */
  datatype Holder = Holder(user: Option<UserId>, department: Option<DepartmentId>)

  /** Read with the user first, should both columns be set. */
  function OwnerOf(h: Holder): Option<Owner> {
    if h.user.Some? then Some(OwnedByUser(h.user.value))
    else if h.department.Some? then Some(OwnedByDepartment(h.department.value))
    else None
  }

  function HolderOf(owner: Owner): Holder {
    match owner
    case OwnedByUser(user) => Holder(Some(user), None)
    case OwnedByDepartment(department) => Holder(None, Some(department))
  }

  /** Nobody is the same owner as nobody else, nor as nobody. */
  predicate SameOwner(left: Option<Owner>, right: Option<Owner>) {
    left.Some? && right.Some? && left == right
  }

  predicate IsLineOwnersThread(thread: Holder, line: Holder) {
    SameOwner(OwnerOf(thread), OwnerOf(line))
  }

  /** A filter on threads: the alternatives any of which lets a row through. */
  datatype Clause = UserIs(user: UserId) | DepartmentIn(departments: set<DepartmentId>)

  function BuildScope(user: UserId, departments: set<DepartmentId>): seq<Clause> {
    [UserIs(user)] + if departments != {} then [DepartmentIn(departments)] else []
  }

  /** A column that is empty matches nothing. */
  predicate Passes(clause: Clause, row: Holder) {
    match clause
    case UserIs(user) => row.user == Some(user)
    case DepartmentIn(departments) => row.department.Some? && row.department.value in departments
  }

  predicate InScope(scope: seq<Clause>, row: Holder) {
    exists i | 0 <= i < |scope| :: Passes(scope[i], row)
  }

  predicate CanAccess(row: Holder, user: UserId, departments: set<DepartmentId>) {
    row.user == Some(user) || (row.department.Some? && row.department.value in departments)
  }

  /** The filter for lists and the rule for loaded rows let the same threads through. */
  lemma ScopeIsAccess(row: Holder, user: UserId, departments: set<DepartmentId>)
    ensures InScope(BuildScope(user, departments), row) <==> CanAccess(row, user, departments)
  {
    var scope := BuildScope(user, departments);
    assert Passes(scope[0], row) <==> row.user == Some(user);
    if departments != {} {
      assert Passes(scope[1], row) <==> row.department.Some? && row.department.value in departments;
    }
  }

  /** Who is in which department, and which users and departments were deleted. */
  datatype Staff = Staff(members: set<(UserId, DepartmentId)>, deletedUsers: set<UserId>, deletedDepartments: set<DepartmentId>)

  function DepartmentsOf(staff: Staff, user: UserId): set<DepartmentId> {
    set m | m in staff.members && m.0 == user && m.1 !in staff.deletedDepartments :: m.1
  }

  /** Everyone a change of a thread is announced to. */
  function Audience(staff: Staff, row: Holder): set<UserId> {
    var members :=
      if row.department.None? || row.department.value in staff.deletedDepartments then {}
      else set m | m in staff.members && m.1 == row.department.value && m.0 !in staff.deletedUsers :: m.0;
    members + (SetOf(row.user) - staff.deletedUsers)
  }

  /** A thread is announced to exactly the users, not deleted, who could open it. */
  lemma AudienceCanOpen(staff: Staff, row: Holder, user: UserId)
    ensures user in Audience(staff, row) <==>
      user !in staff.deletedUsers && InScope(BuildScope(user, DepartmentsOf(staff, user)), row)
  {
    ScopeIsAccess(row, user, DepartmentsOf(staff, user));
    if row.department.Some? {
      var department := row.department.value;
      assert (user, department) in staff.members && department !in staff.deletedDepartments
         <==> department in DepartmentsOf(staff, user) by {
        if (user, department) in staff.members {
          assert (user, department).0 == user;
        }
      }
      if (user, department) in staff.members {
        assert (user, department).1 == department;
      }
    }
  }
}
