/** The user-management page (src/pages/Users.tsx): the four-stage filter
    over the user list, the department list offered for filtering, the
    active/inactive toggle and the role labels. */
module UsersPage {
  import opened Wrappers
  import opened Text
  import opened Lists
  import opened Api
  import opened Auth

  /** `'all' | 'admin' | 'user'`. */
  datatype RoleFilter = AnyRole | OnlyRole(role: Role)

  /** `'all' | 'active' | 'inactive'`. */
  datatype StatusFilter = AnyStatus | ActiveOnly | InactiveOnly

  /** The value of the department selector that means "every department". */
  const AllDepartments: string := "all"

  /** The search stage: a non-empty term must occur in the lower-cased name
      or the lower-cased e-mail address. */
  function SearchTest(term: string): User -> bool {
    (u: User) => term == "" || Includes(ToLowerAscii(u.name), ToLowerAscii(term)) || Includes(ToLowerAscii(u.email), ToLowerAscii(term))
  }

  /** `user.department?.name === selectedDepartment`: a user without a
      department never matches a selected department. */
  function DepartmentTest(dep: string): User -> bool {
    (u: User) => dep == AllDepartments || (u.department.Some? && u.department.value.name == dep)
  }

  function RoleTest(rf: RoleFilter): User -> bool {
    (u: User) => rf.AnyRole? || u.role == rf.role
  }

  function StatusTest(sf: StatusFilter): User -> bool {
    (u: User) => sf.AnyStatus? || u.active == sf.ActiveOnly?
  }

  /** The selections of the filter effect. */
  datatype UserQuery = UserQuery(term: string, department: string, role: RoleFilter, status: StatusFilter)

  function SearchAndDepartment(q: UserQuery): User -> bool {
    (u: User) => SearchTest(q.term)(u) && DepartmentTest(q.department)(u)
  }

  function FirstThree(q: UserQuery): User -> bool {
    (u: User) => SearchAndDepartment(q)(u) && RoleTest(q.role)(u)
  }

  /** All four stages at once. */
  function UserTest(q: UserQuery): User -> bool {
    (u: User) => FirstThree(q)(u) && StatusTest(q.status)(u)
  }

  /** The users the page lists for the selections `q`. */
  function UsersFilter(users: seq<User>, q: UserQuery): seq<User> {
    Filter(users, UserTest(q))
  }

  /** An unselected stage keeps everything. */
  lemma UnselectedStages(us: seq<User>, q: UserQuery)
    ensures q.term == "" ==> Filter(us, SearchTest(q.term)) == us
    ensures q.department == AllDepartments ==> Filter(us, DepartmentTest(q.department)) == us
    ensures q.role.AnyRole? ==> Filter(us, RoleTest(q.role)) == us
    ensures q.status.AnyStatus? ==> Filter(us, StatusTest(q.status)) == us
  {
    if q.term == "" {
      FilterKeepsAll(us, SearchTest(q.term));
    }
    if q.department == AllDepartments {
      FilterKeepsAll(us, DepartmentTest(q.department));
    }
    if q.role.AnyRole? {
      FilterKeepsAll(us, RoleTest(q.role));
    }
    if q.status.AnyStatus? {
      FilterKeepsAll(us, StatusTest(q.status));
    }
  }

  /** The filter effect: `filtered` starts as the whole list and each
      selected stage narrows it in turn; the result is one filter by the
      four tests together. */
  method ComputeFilteredUsers(users: seq<User>, q: UserQuery) returns (filtered: seq<User>)
    ensures filtered == UsersFilter(users, q)
  {
    filtered := users;
    UnselectedStages(filtered, q);
    if q.term != "" {
      filtered := Filter(filtered, SearchTest(q.term));
    }
    assert filtered == Filter(users, SearchTest(q.term));
    UnselectedStages(filtered, q);
    if q.department != AllDepartments {
      filtered := Filter(filtered, DepartmentTest(q.department));
    }
    FilterFilter(users, SearchTest(q.term), DepartmentTest(q.department), SearchAndDepartment(q));
    assert filtered == Filter(users, SearchAndDepartment(q));
    UnselectedStages(filtered, q);
    if q.role != AnyRole {
      filtered := Filter(filtered, RoleTest(q.role));
    }
    FilterFilter(users, SearchAndDepartment(q), RoleTest(q.role), FirstThree(q));
    assert filtered == Filter(users, FirstThree(q));
    UnselectedStages(filtered, q);
    if q.status != AnyStatus {
      filtered := Filter(filtered, StatusTest(q.status));
    }
    FilterFilter(users, FirstThree(q), StatusTest(q.status), UserTest(q));
  }

  /** Membership in the listed users, stage by stage, in both directions;
      the list keeps the original order; with no selection it is the whole
      list. */
  lemma UsersFilterExact(users: seq<User>, q: UserQuery)
    ensures forall u :: u in UsersFilter(users, q) <==>
      u in users
      && (q.term != "" ==> Includes(ToLowerAscii(u.name), ToLowerAscii(q.term)) || Includes(ToLowerAscii(u.email), ToLowerAscii(q.term)))
      && (q.department != AllDepartments ==> u.department.Some? && u.department.value.name == q.department)
      && (q.role.OnlyRole? ==> u.role == q.role.role)
      && (q.status.ActiveOnly? ==> u.active)
      && (q.status.InactiveOnly? ==> !u.active)
    ensures IsSubsequence(UsersFilter(users, q), users)
    ensures q == UserQuery("", AllDepartments, AnyRole, AnyStatus) ==> UsersFilter(users, q) == users
  {
    FilterIsSubsequence(users, UserTest(q));
    forall u
      ensures UserTest(q)(u) <==>
        (q.term != "" ==> Includes(ToLowerAscii(u.name), ToLowerAscii(q.term)) || Includes(ToLowerAscii(u.email), ToLowerAscii(q.term)))
        && (q.department != AllDepartments ==> u.department.Some? && u.department.value.name == q.department)
        && (q.role.OnlyRole? ==> u.role == q.role.role)
        && (q.status.ActiveOnly? ==> u.active)
        && (q.status.InactiveOnly? ==> !u.active)
    {
      assert UserTest(q)(u) == (FirstThree(q)(u) && StatusTest(q.status)(u));
      assert FirstThree(q)(u) == (SearchAndDepartment(q)(u) && RoleTest(q.role)(u));
      assert SearchAndDepartment(q)(u) == (SearchTest(q.term)(u) && DepartmentTest(q.department)(u));
    }
    if q == UserQuery("", AllDepartments, AnyRole, AnyStatus) {
      FilterKeepsAll(users, UserTest(q));
    }
  }

  function LastTwo(q: UserQuery): User -> bool {
    (u: User) => StatusTest(q.status)(u) && RoleTest(q.role)(u)
  }

  function LastThree(q: UserQuery): User -> bool {
    (u: User) => LastTwo(q)(u) && DepartmentTest(q.department)(u)
  }

  function ReverseTest(q: UserQuery): User -> bool {
    (u: User) => LastThree(q)(u) && SearchTest(q.term)(u)
  }

  /** The stages commute: running them in the opposite order (status,
      role, department, search) lists the same users; filtering the result
      again changes nothing. */
  lemma UsersFilterOrderIrrelevant(users: seq<User>, q: UserQuery)
    ensures Filter(Filter(Filter(Filter(users, StatusTest(q.status)), RoleTest(q.role)), DepartmentTest(q.department)), SearchTest(q.term))
      == UsersFilter(users, q)
    ensures UsersFilter(UsersFilter(users, q), q) == UsersFilter(users, q)
  {
    FilterFilter(users, StatusTest(q.status), RoleTest(q.role), LastTwo(q));
    FilterFilter(users, LastTwo(q), DepartmentTest(q.department), LastThree(q));
    FilterFilter(users, LastThree(q), SearchTest(q.term), ReverseTest(q));
    forall u | u in users
      ensures ReverseTest(q)(u) == UserTest(q)(u)
    {
      assert ReverseTest(q)(u) == (StatusTest(q.status)(u) && RoleTest(q.role)(u) && DepartmentTest(q.department)(u) && SearchTest(q.term)(u));
      assert UserTest(q)(u) == (SearchTest(q.term)(u) && DepartmentTest(q.department)(u) && RoleTest(q.role)(u) && StatusTest(q.status)(u));
    }
    FilterCongruent(users, ReverseTest(q), UserTest(q));
    FilterIdempotent(users, UserTest(q));
  }

  /** `users.map(u => u.department?.name).filter(Boolean)`: the names of the
      departments users belong to, empty names dropped, repeats kept. */
  function DepartmentNames(users: seq<User>): (names: seq<string>)
    ensures forall n :: n in names <==> n != "" && exists u :: u in users && u.department.Some? && u.department.value.name == n
  {
    if users == [] then []
    else
      var u := users[0];
      var rest := DepartmentNames(users[1..]);
      assert forall v :: v in users <==> v == u || v in users[1..];
      if u.department.Some? && u.department.value.name != "" then [u.department.value.name] + rest else rest
  }

  /** `departments`: `Array.from(new Set(...))` over those names. */
  function Departments(users: seq<User>): seq<string> {
    Dedup(DepartmentNames(users))
  }

  /** Every non-empty department name in use is offered exactly once, in
      the order the names first appear among the users. */
  lemma DepartmentsExact(users: seq<User>)
    ensures forall n :: n in Departments(users) <==> n != "" && exists u :: u in users && u.department.Some? && u.department.value.name == n
    ensures NoDuplicates(Departments(users))
    ensures forall i, j :: 0 <= i < j < |Departments(users)| ==>
      IndexOf(DepartmentNames(users), Departments(users)[i]) < IndexOf(DepartmentNames(users), Departments(users)[j])
  {
    DedupNoDuplicates(DepartmentNames(users));
    DedupFirstOccurrenceOrder(DepartmentNames(users));
  }

  function HasUserId(id: int): User -> bool {
    (u: User) => u.id == id
  }

  function SetActiveTo(active: bool): User -> User {
    (u: User) => u.(active := active)
  }

  /** `prev.map(user => user.id === userId ? { ...user, active: !currentStatus } : user)`. */
  function SetActive(users: seq<User>, id: int, active: bool): (r: seq<User>)
    ensures |r| == |users|
    ensures forall i :: 0 <= i < |users| ==> r[i] == if users[i].id == id then users[i].(active := active) else users[i]
  {
    UpdateWhere(users, HasUserId(id), SetActiveTo(active))
  }

  /** The users with that id get the new status and keep everything else,
      every other user is untouched, and repeating the update changes
      nothing further. */
  lemma SetActiveProperties(users: seq<User>, id: int, active: bool)
    ensures forall i :: 0 <= i < |users| && users[i].id == id ==> SetActive(users, id, active)[i].active == active
    ensures forall i :: 0 <= i < |users| ==> SetActive(users, id, active)[i].(active := users[i].active) == users[i]
    ensures forall i :: 0 <= i < |users| && users[i].id != id ==> SetActive(users, id, active)[i] == users[i]
    ensures SetActive(SetActive(users, id, active), id, active) == SetActive(users, id, active)
  {
    UpdateWhereIdempotent(users, HasUserId(id), SetActiveTo(active));
  }

  const ToggleFailed: string := "ユーザーステータスの更新に失敗しました"

  /** The body `toggleUserStatus` sends. */
  function ActivePatch(active: bool): Json {
    JObject([("user", JObject([("active", JBool(active))]))])
  }

  /** `getRoleLabel`: the two known roles get their Japanese labels, any
      other string is shown as it is. */
  function RoleLabel(role: string): (shown: string)
    ensures role == "admin" ==> shown == "管理者"
    ensures role == "user" ==> shown == "一般ユーザー"
    ensures role != "admin" && role != "user" ==> shown == role
  {
    if role == "admin" then "管理者"
    else if role == "user" then "一般ユーザー"
    else role
  }

  /** The role names a `Role` is compared as. */
  function RoleName(r: Role): string {
    match r
    case AdminRole => "admin"
    case UserRole => "user"
  }

  /** The two roles get different labels, and neither label is a role name. */
  lemma RoleLabelsDistinct()
    ensures RoleLabel(RoleName(AdminRole)) != RoleLabel(RoleName(UserRole))
    ensures RoleLabel(RoleName(AdminRole)) != "admin" && RoleLabel(RoleName(UserRole)) != "user"
  {
  }

  class UsersPageState {
    const api: ApiClient
    var users: seq<User>
    var filteredUsers: seq<User>
    var error: Option<string>
    var query: UserQuery

    constructor (api: ApiClient)
      ensures this.api == api && users == [] && filteredUsers == [] && error == None
      ensures query == UserQuery("", AllDepartments, AnyRole, AnyStatus)
    {
      this.api := api;
      users := [];
      filteredUsers := [];
      error := None;
      query := UserQuery("", AllDepartments, AnyRole, AnyStatus);
    }

    /** The effect on `[users, searchTerm, selectedDepartment, selectedRole,
        selectedStatus]`. */
    method ApplyFilter()
      modifies this
      ensures filteredUsers == UsersFilter(users, query)
      ensures users == old(users) && query == old(query) && error == old(error)
    {
      filteredUsers := ComputeFilteredUsers(users, query);
    }

    /** `toggleUserStatus(id, currentStatus)`: PATCH the negated status; on
        success the user gets it, on failure the list is kept and the
        fixed error message is shown (the client's errors carry no
        `response`, so `err.response?.data?.error` is undefined and the fallback is always taken). */
    method ToggleUserStatus(id: int, currentStatus: bool, outcome: HttpOutcome<Json>) returns (req: HttpRequest)
      modifies this
      ensures req == api.Prepared("/users/" + IntToDecimal(id), RequestOptions(Some(Patch), Some(ActivePatch(!currentStatus)), None))
      ensures outcome.Ok? ==> users == SetActive(old(users), id, !currentStatus) && error == old(error)
      ensures !outcome.Ok? ==> users == old(users) && error == Some(ToggleFailed)
      ensures filteredUsers == old(filteredUsers) && query == old(query)
    {
      var r;
      req, r := api.PatchJson("/users/" + IntToDecimal(id), Some(ActivePatch(!currentStatus)), outcome);
      if r.Success? {
        users := SetActive(users, id, !currentStatus);
      } else {
        error := Some(ToggleFailed);
      }
    }
  }
}
