/** Application users as the rest of the program sees them (user.service):
    the list in memory, always re-read from the repository after a write. */
module Users {
  import opened Common
  import opened Strings
  import opened Models
  import opened DataSync
  import opened UserRepo

  const DefaultPassword: string := "password123"
  const UserNotFound: string := "User not found"

  /** The fields a caller supplies to `addUser`; the username, full name, role
      and e-mail are required by the code, the rest may be missing. */
  datatype UserDraft = UserDraft(
    id: Option<string>,
    username: string,
    fullName: string,
    role: UserRole,
    email: string,
    status: Option<UserStatus>,
    password: Option<string>)

  /** The fields a caller passes to `updateUser` (a `Partial<AppUser>`): a
      present field overrides. */
  datatype UserPatch = UserPatch(
    id: Option<string>,
    username: Option<string>,
    fullName: Option<string>,
    role: Option<UserRole>,
    email: Option<string>,
    status: Option<UserStatus>,
    password: Option<string>,
    department: Option<Department>,
    phone: Option<string>,
    gender: Option<string>,
    age: Option<int>,
    token: Option<string>,
    lastLogin: Option<Instant>,
    createdAt: Option<Instant>,
    updatedAt: Option<Instant>)

  const NoChange: UserPatch := UserPatch(None, None, None, None, None, None, None, None, None, None, None, None, None, None, None)

  function Pick<T>(patch: Option<T>, current: T): (r: T)
    ensures patch.Some? ==> r == patch.value
    ensures patch.None? ==> r == current
  {
    if patch.Some? then patch.value else current
  }

  /** The account `addUser` creates: a missing or empty id is replaced by the
      generated one, the username is normalised, the status defaults to active
      and the password to the demo password; the token is empty, and the last
      login and both timestamps are the moment of creation. */
  function NewUser(draft: UserDraft, generatedId: string, now: Instant): (u: AppUser)
    ensures u.id == if Truthy(draft.id) then draft.id.value else generatedId
    ensures u.username == Normalize(draft.username)
    ensures u.fullName == draft.fullName && u.role == draft.role && u.email == draft.email
    ensures u.status == Pick(draft.status, Active)
    ensures u.password == Some(if Truthy(draft.password) then draft.password.value else DefaultPassword)
    ensures u.department.None? && u.token == "" && u.lastLogin == Some(now)
    ensures u.createdAt == now && u.updatedAt == now
  {
    AppUser(
      id := if Truthy(draft.id) then draft.id.value else generatedId,
      username := Normalize(draft.username),
      fullName := draft.fullName,
      role := draft.role,
      email := draft.email,
      status := Pick(draft.status, Active),
      password := Some(if Truthy(draft.password) then draft.password.value else DefaultPassword),
      department := None,
      phone := None,
      gender := None,
      age := None,
      token := "",
      lastLogin := Some(now),
      createdAt := now,
      updatedAt := now)
  }

  /** `{ ...user, ...patch }`, with a non-empty new username normalised. */
  function Patched(u: AppUser, patch: UserPatch): (r: AppUser)
  {
    u.(id := Pick(patch.id, u.id),
       username := if Truthy(patch.username) then Normalize(patch.username.value) else Pick(patch.username, u.username),
       fullName := Pick(patch.fullName, u.fullName),
       role := Pick(patch.role, u.role),
       email := Pick(patch.email, u.email),
       status := Pick(patch.status, u.status),
       password := if patch.password.Some? then patch.password else u.password,
       department := if patch.department.Some? then patch.department else u.department,
       phone := if patch.phone.Some? then patch.phone else u.phone,
       gender := if patch.gender.Some? then patch.gender else u.gender,
       age := if patch.age.Some? then patch.age else u.age,
       token := Pick(patch.token, u.token),
       lastLogin := if patch.lastLogin.Some? then patch.lastLogin else u.lastLogin,
       createdAt := Pick(patch.createdAt, u.createdAt),
       updatedAt := Pick(patch.updatedAt, u.updatedAt))
  }

  /** An empty patch changes nothing. */
  lemma PatchedNoChange(u: AppUser)
    ensures Patched(u, NoChange) == u
  {
  }

  /** Applying the same patch twice is applying it once. */
  lemma PatchedIdempotent(u: AppUser, patch: UserPatch)
    ensures Patched(Patched(u, patch), patch) == Patched(u, patch)
  {
    var once := Patched(u, patch);
    if Truthy(patch.username) {
      NormalizeIgnoresCaseAndSpace(patch.username.value);
      assert Patched(once, patch).username == once.username;
    }
  }

  /** A field the patch leaves out keeps its value; a field it gives wins,
      the username normalised. */
  lemma PatchedKeeps(u: AppUser, patch: UserPatch)
    ensures patch.createdAt.None? ==> Patched(u, patch).createdAt == u.createdAt
    ensures patch.createdAt.Some? ==> Patched(u, patch).createdAt == patch.createdAt.value
    ensures patch.phone.None? ==> Patched(u, patch).phone == u.phone
    ensures patch.phone.Some? ==> Patched(u, patch).phone == patch.phone
    ensures patch.token.None? ==> Patched(u, patch).token == u.token
    ensures patch.id.None? ==> Patched(u, patch).id == u.id
    ensures patch.username.None? ==> Patched(u, patch).username == u.username
    ensures Truthy(patch.username) ==> Patched(u, patch).username == Normalize(patch.username.value)
    ensures patch.username == Some("") ==> Patched(u, patch).username == ""
  {
  }

  predicate IsActiveDoctor(u: AppUser)
  {
    u.role == Doctor && u.status == Active
  }

  /** The accounts whose username is the normalised query. */
  function ByUsername(users: seq<AppUser>, username: string): (r: Option<AppUser>)
    ensures r.Some? <==> exists i :: 0 <= i < |users| && users[i].username == Normalize(username)
    ensures r.Some? ==> r.value in users && r.value.username == Normalize(username)
    ensures r.Some? ==> exists i :: 0 <= i < |users| && users[i] == r.value
                                    && forall j :: 0 <= j < i ==> users[j].username != Normalize(username)
  {
    FindFirst(users, (u: AppUser) => u.username == Normalize(username));
    Find(users, (u: AppUser) => u.username == Normalize(username))
  }

  /** Looking a user up ignores the case of the query and blanks around it. */
  lemma ByUsernameIgnoresCaseAndSpace(users: seq<AppUser>, username: string)
    ensures ByUsername(users, ToUpper(username)) == ByUsername(users, username)
    ensures ByUsername(users, Trim(username)) == ByUsername(users, username)
  {
    NormalizeIgnoresCaseAndSpace(username);
  }

  /** A user added under a name nobody else has is found again by that name,
      written in any case. */
  lemma AddedUserFound(users: seq<AppUser>, draft: UserDraft, generatedId: string, now: Instant)
    requires forall i :: 0 <= i < |users| ==> users[i].username != Normalize(draft.username)
    ensures ByUsername(users + [NewUser(draft, generatedId, now)], ToUpper(draft.username)) == Some(NewUser(draft, generatedId, now))
  {
    var u := NewUser(draft, generatedId, now);
    NormalizeIgnoresCaseAndSpace(draft.username);
    FindAppend(users, u, (x: AppUser) => x.username == Normalize(ToUpper(draft.username)));
  }

  class UserService {
    /** The current list of users (the service's `usersSubject`). */
    var users: seq<AppUser>
    const repo: UserRepository

    constructor(repo: UserRepository)
      ensures this.repo == repo && users == repo.GetUsers()
    {
      this.repo := repo;
      users := repo.GetUsers();
    }

    /** `refreshState()`, also run on every 'opd_users' announcement. */
    method RefreshState()
      modifies this`users
      ensures users == repo.GetUsers()
    {
      users := repo.GetUsers();
    }

    /** `getDoctors()`: the active doctors, in list order. */
    function GetDoctors(): (r: seq<AppUser>)
      reads this
      ensures forall i :: 0 <= i < |r| ==> r[i] in users && r[i].role == Doctor && r[i].status == Active
      ensures forall i :: 0 <= i < |users| && users[i].role == Doctor && users[i].status == Active ==> users[i] in r
      ensures Subsequence(r, users)
      ensures forall u :: multiset(r)[u] == if IsActiveDoctor(u) then multiset(users)[u] else 0
    {
      FilterSubsequence(users, IsActiveDoctor);
      FilterMultiset(users, IsActiveDoctor);
      Filter(users, IsActiveDoctor)
    }

    /** `addUser(user)`: appends the new account, saves the list and re-reads it. */
    method AddUser(draft: UserDraft, generatedId: string, now: Instant, accepted: bool) returns (u: AppUser)
      modifies this`users, repo.store`items, repo.store`events
      ensures u == NewUser(draft, generatedId, now)
      ensures repo.store.Wrote(UsersKey, UserList(old(users) + [u]), accepted)
      ensures users == repo.GetUsers()
      ensures accepted ==> users == old(users) + [u]
    {
      u := NewUser(draft, generatedId, now);
      repo.SaveUsers(users + [u], accepted);
      RefreshState();
    }

    /** `updateUser(id, userData)`: patches the first account with that id;
        an unknown id is an error and nothing is written. */
    method UpdateUser(id: string, patch: UserPatch, accepted: bool) returns (r: Result<AppUser>)
      modifies this`users, repo.store`items, repo.store`events
      ensures var k := FindIndex(old(users), (u: AppUser) => u.id == id);
        && (k == -1 ==> r == Err(UserNotFound) && users == old(users) && unchanged(repo.store))
        && (k != -1 ==>
              && r == Ok(Patched(old(users)[k], patch))
              && repo.store.Wrote(UsersKey, UserList(old(users)[k := r.value]), accepted)
              && users == repo.GetUsers()
              && (accepted ==> users == old(users)[k := r.value]))
    {
      var k := FindIndex(users, (u: AppUser) => u.id == id);
      if k == -1 {
        return Err(UserNotFound);
      }
      var updated := Patched(users[k], patch);
      repo.SaveUsers(users[k := updated], accepted);
      RefreshState();
      r := Ok(updated);
    }

    /** `deleteUser(id)`: saves the list without the accounts of that id, even
        when there is none, and answers true. */
    method DeleteUser(id: string, accepted: bool) returns (ok: bool)
      modifies this`users, repo.store`items, repo.store`events
      ensures ok
      ensures repo.store.Wrote(UsersKey, UserList(Filter(old(users), (u: AppUser) => u.id != id)), accepted)
      ensures users == repo.GetUsers()
      ensures accepted ==> forall i :: 0 <= i < |users| ==> users[i].id != id && users[i] in old(users)
      ensures accepted ==> forall i :: 0 <= i < |old(users)| && old(users)[i].id != id ==> old(users)[i] in users
    {
      repo.SaveUsers(Filter(users, (u: AppUser) => u.id != id), accepted);
      RefreshState();
      ok := true;
    }

    /** `getUserByUsername(username)`. */
    function GetUserByUsername(username: string): (r: Option<AppUser>)
      reads this
      ensures r.Some? <==> exists i :: 0 <= i < |users| && users[i].username == Normalize(username)
      ensures r.Some? ==> r.value in users && r.value.username == Normalize(username)
      ensures r.Some? ==> exists i :: 0 <= i < |users| && users[i] == r.value
                                      && forall j :: 0 <= j < i ==> users[j].username != Normalize(username)
    {
      ByUsername(users, username)
    }
  }
}
