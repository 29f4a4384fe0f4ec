/** The session state of src/contexts/AuthContext.tsx: the current user, the
    loading flag, and the mock login and logout that write the token to
    `localStorage` directly. The clock is a parameter: `Date.now()` as a
    number of milliseconds and `new Date().toISOString()` as a string. */
module Auth {
  import opened Wrappers
  import opened Text
  import opened Storage
  import opened Api

  datatype Role = AdminRole | UserRole

  datatype Department = Department(id: int, name: string)

  datatype User = User(
    id: int,
    email: string,
    name: string,
    role: Role,
    active: bool,
    department: Option<Department>,
    createdAt: string,
    updatedAt: string)

  /** `Partial<User>`: `None` is a property the object does not have. */
  datatype UserPatch = UserPatch(
    id: Option<int>,
    email: Option<string>,
    name: Option<string>,
    role: Option<Role>,
    active: Option<bool>,
    department: Option<Department>,
    createdAt: Option<string>,
    updatedAt: Option<string>)

  const EmptyPatch: UserPatch := UserPatch(None, None, None, None, None, None, None, None)

  /** `{ ...prev, ...userData }`: every property the patch has wins. */
  function Merge(u: User, p: UserPatch): (r: User)
    ensures p.id.Some? ==> r.id == p.id.value
    ensures p.id.None? ==> r.id == u.id
    ensures p.email.Some? ==> r.email == p.email.value
    ensures p.email.None? ==> r.email == u.email
    ensures p.role.Some? ==> r.role == p.role.value
    ensures p.role.None? ==> r.role == u.role
    ensures p.name.Some? ==> r.name == p.name.value
    ensures p.name.None? ==> r.name == u.name
    ensures p.active.Some? ==> r.active == p.active.value
    ensures p.active.None? ==> r.active == u.active
    ensures p.department.Some? ==> r.department == p.department
    ensures p.department.None? ==> r.department == u.department
    ensures p.createdAt.Some? ==> r.createdAt == p.createdAt.value
    ensures p.createdAt.None? ==> r.createdAt == u.createdAt
    ensures p.updatedAt.Some? ==> r.updatedAt == p.updatedAt.value
    ensures p.updatedAt.None? ==> r.updatedAt == u.updatedAt
  {
    User(
      p.id.GetOr(u.id), p.email.GetOr(u.email), p.name.GetOr(u.name), p.role.GetOr(u.role),
      p.active.GetOr(u.active),
      if p.department.Some? then p.department else u.department,
      p.createdAt.GetOr(u.createdAt), p.updatedAt.GetOr(u.updatedAt))
  }

  /** Object spread of two patches: the later one's properties win. */
  function Combine(p: UserPatch, q: UserPatch): UserPatch {
    UserPatch(
      if q.id.Some? then q.id else p.id,
      if q.email.Some? then q.email else p.email,
      if q.name.Some? then q.name else p.name,
      if q.role.Some? then q.role else p.role,
      if q.active.Some? then q.active else p.active,
      if q.department.Some? then q.department else p.department,
      if q.createdAt.Some? then q.createdAt else p.createdAt,
      if q.updatedAt.Some? then q.updatedAt else p.updatedAt)
  }

  /** An empty patch changes nothing, a patch applied twice is applied once,
      and two successive patches are one combined patch. */
  lemma MergeLaws(u: User, p: UserPatch, q: UserPatch)
    ensures Merge(u, EmptyPatch) == u
    ensures Merge(Merge(u, p), p) == Merge(u, p)
    ensures Merge(Merge(u, p), q) == Merge(u, Combine(p, q))
  {
  }

  const CredentialsRequired: string := "メールアドレスとパスワードを入力してください"
  const MockTokenPrefix: string := "mock-jwt-token-"
  const AdminMarker: string := "admin"

  /** `'mock-jwt-token-' + Date.now()`. */
  function MockToken(nowMs: int): string {
    MockTokenPrefix + IntToDecimal(nowMs)
  }

  /** The token names the moment of login: the clock reading can be read
      back from it. */
  lemma MockTokenCarriesTime(nowMs: int)
    ensures MockToken(nowMs)[..|MockTokenPrefix|] == MockTokenPrefix
    ensures ParseDecimal(MockToken(nowMs)[|MockTokenPrefix|..]) == Some(nowMs)
  {
    assert MockToken(nowMs)[|MockTokenPrefix|..] == IntToDecimal(nowMs);
    DecimalRoundTrip(nowMs);
  }

  /** The user the mock login builds: an address containing `admin` gets
      the administrator, any other the ordinary user. The two timestamps are
      two separate readings of the clock. */
  function MockUser(email: string, createdIso: string, updatedIso: string): (u: User)
    ensures u.email == email && u.active
    ensures u.createdAt == createdIso && u.updatedAt == updatedIso
    ensures u.department.Some? && u.department.value.id == 1
  {
    var admin := Includes(email, AdminMarker);
    User(
      if admin then 1 else 2,
      email,
      if admin then "管理者" else "ユーザー",
      if admin then AdminRole else UserRole,
      true,
      Some(Department(1, if admin then "管理部" else "開発部")),
      createdIso, updatedIso)
  }

  /** The four choices of the mock user are made by the same test, so they
      always agree, and the test is whether `admin` occurs somewhere in the
      address. */
  lemma MockUserConsistent(email: string, createdIso: string, updatedIso: string)
    ensures var u := MockUser(email, createdIso, updatedIso);
      (u.role == AdminRole <==> exists k :: OccursAt(email, AdminMarker, k))
      && (u.role == AdminRole <==> u.id == 1)
      && (u.role == AdminRole <==> u.name == "管理者")
      && (u.role == AdminRole <==> u.department.value.name == "管理部")
      && (u.role != AdminRole ==> u.role == UserRole && u.id == 2 && u.name == "ユーザー" && u.department.value.name == "開発部")
  {
    IncludesIffOccurs(email, AdminMarker);
  }

  /** The user `initializeAuth` installs whenever a token is stored,
      whatever the token is. */
  function PlaceholderUser(createdIso: string, updatedIso: string): (u: User)
    ensures u.id == 1 && u.role == UserRole && u.active && u.department.None?
    ensures u.createdAt == createdIso && u.updatedAt == updatedIso
  {
    User(1, "taro@tech.example.com", "田中太郎", UserRole, true, None, createdIso, updatedIso)
  }

  const OutsideProvider: string := "useAuth must be used within an AuthProvider"

  /** `useAuth()`: the context value, or the error thrown outside a provider. */
  function UseAuth<T>(context: Option<T>): (r: Result<T, string>)
    ensures r.Success? <==> context.Some?
    ensures r.Success? ==> r.value == context.value
    ensures r.Failure? ==> r.error == OutsideProvider
  {
    if context.Some? then Success(context.value) else Failure(OutsideProvider)
  }

  class AuthProvider {
    const storage: LocalStorage
    var user: Option<User>
    var loading: bool

    /** The initial state: no user, loading. */
    constructor (storage: LocalStorage)
      ensures this.storage == storage && user == None && loading
    {
      this.storage := storage;
      user := None;
      loading := true;
    }

    /** `initializeAuth`: a truthy stored token installs the placeholder
        user; loading ends either way and the store is only read. */
    method InitializeAuth(createdIso: string, updatedIso: string)
      modifies this
      ensures !loading
      ensures IsTruthy(storage.GetItem(AuthTokenKey)) ==> user == Some(PlaceholderUser(createdIso, updatedIso))
      ensures !IsTruthy(storage.GetItem(AuthTokenKey)) ==> user == old(user)
    {
      var token := storage.GetItem(AuthTokenKey);
      if IsTruthy(token) {
        user := Some(PlaceholderUser(createdIso, updatedIso));
      }
      loading := false;
    }

    /** `login(email, password)`: with both non-empty, store a fresh mock
        token and install the mock user; otherwise reject with the message
        and change nothing. */
    method Login(email: string, password: string, nowMs: int, createdIso: string, updatedIso: string) returns (r: Result<(), string>)
      modifies this, storage
      ensures r.Success? <==> email != "" && password != ""
      ensures r.Success? ==> user == Some(MockUser(email, createdIso, updatedIso))
      ensures r.Success? ==> storage.items == old(storage.items)[AuthTokenKey := MockToken(nowMs)]
      ensures r.Failure? ==> r.error == CredentialsRequired && user == old(user) && storage.items == old(storage.items)
      ensures loading == old(loading)
    {
      if email != "" && password != "" {
        storage.SetItem(AuthTokenKey, MockToken(nowMs));
        user := Some(MockUser(email, createdIso, updatedIso));
        r := Success(());
      } else {
        r := Failure(CredentialsRequired);
      }
    }

    /** `logout()`: no user and no stored token, whatever the state was. */
    method Logout()
      modifies this, storage
      ensures user == None && loading == old(loading)
      ensures storage.items == old(storage.items) - {AuthTokenKey}
    {
      user := None;
      storage.RemoveItem(AuthTokenKey);
    }

    /** `updateUser(userData)`: merges into the current user; with no user
        there is nothing to update. */
    method UpdateUser(patch: UserPatch)
      modifies this
      ensures user == if old(user).Some? then Some(Merge(old(user).value, patch)) else None
      ensures loading == old(loading)
    {
      if user.Some? {
        user := Some(Merge(user.value, patch));
      }
    }
  }

  /** The mock login writes the token to the shared store but does not tell
      the API client, which keeps the token it read when it was created:
      a client created with no token stays without one, so its requests
      carry no Bearer header. */
  method LoginLeavesClientToken(auth: AuthProvider, client: ApiClient, email: string, password: string, nowMs: int, createdIso: string, updatedIso: string)
    returns (r: Result<(), string>)
    requires client.storage == auth.storage
    requires client.token == None && client.Synced()
    modifies auth, auth.storage
    ensures r.Success? ==> client.token == None && !client.Synced()
    ensures r.Success? ==> Authorization !in ComposeHeaders(client.token, NoOptions)
  {
    r := auth.Login(email, password, nowMs, createdIso, updatedIso);
  }

  /** Logging out twice leaves the same state as logging out once. */
  method LogoutTwice(auth: AuthProvider)
    modifies auth, auth.storage
    ensures auth.user == None && auth.loading == old(auth.loading)
    ensures auth.storage.items == old(auth.storage.items) - {AuthTokenKey}
  {
    auth.Logout();
    auth.Logout();
  }

  /** Logging in and then out leaves no user and no stored token, and every
      other stored key as it was. */
  method LoginThenLogout(auth: AuthProvider, email: string, password: string, nowMs: int, createdIso: string, updatedIso: string)
    modifies auth, auth.storage
    ensures auth.user == None
    ensures auth.storage.items == old(auth.storage.items) - {AuthTokenKey}
  {
    var _ := auth.Login(email, password, nowMs, createdIso, updatedIso);
    auth.Logout();
  }
}
