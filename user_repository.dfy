/** Persistence of application users (user.repository), including the start-up
    merge of the built-in demo accounts into whatever users are already stored. */
module UserRepo {
  import opened Common
  import opened Models
  import opened DataSync

  const UsersKey: string := "opd_users"

  /** The index of the first user with that username, or -1. */
  function UsernameIndex(users: seq<AppUser>, username: string): (r: int)
    ensures -1 <= r < |users|
    ensures 0 <= r ==> users[r].username == username && forall j :: 0 <= j < r ==> users[j].username != username
    ensures r == -1 <==> forall j :: 0 <= j < |users| ==> users[j].username != username
  {
    FindIndex(users, (u: AppUser) => u.username == username)
  }

  /** The stored account needs the demo account's data: the demo account has a
      department the stored one lacks, or the full names differ. */
  predicate NeedsSync(existing: AppUser, mock: AppUser)
  {
    (Truthy(mock.department) && !Truthy(existing.department)) || mock.fullName != existing.fullName
  }

  /** A stored account after the merge with its demo account: when it needs
      syncing it takes the demo full name, and the demo department if there is
      one; otherwise it stays as it is. */
  function MergeMock(existing: AppUser, mock: AppUser): (u: AppUser)
    ensures u == existing.(fullName := u.fullName, department := u.department)
    ensures !NeedsSync(existing, mock) ==> u == existing
    ensures u.username == existing.username && u.id == existing.id && u.role == existing.role
    ensures u.fullName == mock.fullName
    ensures u.department == if NeedsSync(existing, mock) && Truthy(mock.department) then mock.department else existing.department
  {
    if NeedsSync(existing, mock) then
      existing.(department := if Truthy(mock.department) then mock.department else existing.department,
                fullName := mock.fullName)
    else existing
  }

  /** One step of the merge loop: append an unknown demo account, or sync the
      first stored account with its username. The flag says whether anything changed. */
  function SyncOne(users: seq<AppUser>, mock: AppUser): (seq<AppUser>, bool)
  {
    var k := UsernameIndex(users, mock.username);
    if k == -1 then (users + [mock], true)
    else if NeedsSync(users[k], mock) then (users[k := MergeMock(users[k], mock)], true)
    else (users, false)
  }

  /** The merge loop over the demo accounts, in order. */
  function SyncAll(users: seq<AppUser>, mocks: seq<AppUser>): (seq<AppUser>, bool)
  {
    if mocks == [] then (users, false)
    else
      var (u, c) := SyncAll(users, mocks[..|mocks| - 1]);
      var (u', c') := SyncOne(u, mocks[|mocks| - 1]);
      (u', c || c')
  }

  predicate DistinctUsernames(mocks: seq<AppUser>)
  {
    forall i, j :: 0 <= i < j < |mocks| ==> mocks[i].username != mocks[j].username
  }

  /** What the merge does to the stored account at index `i`: the first stored
      account with a demo username is merged with that demo account; every
      other account is left alone. */
  function Merged(users: seq<AppUser>, mocks: seq<AppUser>, i: int): AppUser
    requires 0 <= i < |users|
  {
    var j := UsernameIndex(mocks, users[i].username);
    if j != -1 && UsernameIndex(users, users[i].username) == i then MergeMock(users[i], mocks[j]) else users[i]
  }

  /** Whether the demo account is missing from the stored users. */
  predicate Absent(users: seq<AppUser>, mock: AppUser)
  {
    UsernameIndex(users, mock.username) == -1
  }

  /** The merge result, described without the loop: each stored account in
      place (merged as `Merged` says), then the missing demo accounts in their order. */
  function Expected(users: seq<AppUser>, mocks: seq<AppUser>): seq<AppUser>
  {
    MergedAll(users, mocks) + Missing(users, mocks)
  }

  /** The demo accounts absent from the stored users, in order. */
  function Missing(users: seq<AppUser>, mocks: seq<AppUser>): (r: seq<AppUser>)
    ensures forall i :: 0 <= i < |r| ==> r[i] in mocks
  {
    Filter(mocks, (m: AppUser) => Absent(users, m))
  }

  lemma MissingAppend(users: seq<AppUser>, ms: seq<AppUser>, m: AppUser)
    ensures Missing(users, ms + [m]) == Missing(users, ms) + if Absent(users, m) then [m] else []
  {
    FilterAppend(ms, [m], (x: AppUser) => Absent(users, x));
  }

  /** Every stored account, merged as `Merged` says. */
  function MergedAll(users: seq<AppUser>, mocks: seq<AppUser>): (r: seq<AppUser>)
    ensures |r| == |users| && forall i :: 0 <= i < |users| ==> r[i] == Merged(users, mocks, i)
  {
    seq(|users|, i requires 0 <= i < |users| => Merged(users, mocks, i))
  }

  /** A demo account that the merge acts on: missing, or present and out of sync. */
  predicate Effective(users: seq<AppUser>, mock: AppUser)
  {
    var k := UsernameIndex(users, mock.username);
    k == -1 || NeedsSync(users[k], mock)
  }

  lemma ExpectedUsernames(users: seq<AppUser>, mocks: seq<AppUser>)
    ensures |Expected(users, mocks)| >= |users|
    ensures forall i :: 0 <= i < |users| ==> Expected(users, mocks)[i].username == users[i].username
    ensures forall i :: |users| <= i < |Expected(users, mocks)| ==> Expected(users, mocks)[i] in mocks
  {
  }

  /** The first stored account with a username the processed demo accounts do
      not use is found at the same place before and after the merge. */
  lemma {:induction false} IndexAfterMerge(users: seq<AppUser>, mocks: seq<AppUser>, name: string)
    requires forall j :: 0 <= j < |mocks| ==> mocks[j].username != name
    ensures UsernameIndex(Expected(users, mocks), name) == UsernameIndex(users, name)
  {
    var e := Expected(users, mocks);
    ExpectedUsernames(users, mocks);
    var k := UsernameIndex(users, name);
    if k == -1 {
      forall j | 0 <= j < |e|
        ensures e[j].username != name
      {
        if j >= |users| {
          var m :| m in mocks && m == e[j];
        }
      }
    } else {
      assert e[k].username == name;
    }
  }

  /** Looking a name up after one more account is appended. */
  lemma UsernameIndexAppend(ms: seq<AppUser>, m: AppUser, name: string)
    ensures UsernameIndex(ms, name) != -1 ==> UsernameIndex(ms + [m], name) == UsernameIndex(ms, name)
    ensures UsernameIndex(ms, name) == -1 ==> UsernameIndex(ms + [m], name) == if name == m.username then |ms| else -1
  {
    FindIndexAppend(ms, m, (u: AppUser) => u.username == name);
  }

  /** One more demo account changes only the stored account it names. */
  lemma MergedStep(users: seq<AppUser>, ms: seq<AppUser>, m: AppUser, i: int)
    requires DistinctUsernames(ms + [m])
    requires 0 <= i < |users|
    ensures Merged(users, ms + [m], i)
         == if i == UsernameIndex(users, m.username) then MergeMock(users[i], m) else Merged(users, ms, i)
  {
    UsernameIndexAppend(ms, m, users[i].username);
    if users[i].username == m.username {
      forall j | 0 <= j < |ms|
        ensures ms[j].username != m.username
      {
        assert (ms + [m])[j] == ms[j] && (ms + [m])[|ms|] == m;
      }
    }
  }

  /** The same step on the whole list of stored accounts. */
  lemma MergedAllStep(users: seq<AppUser>, ms: seq<AppUser>, m: AppUser)
    requires DistinctUsernames(ms + [m])
    ensures var k := UsernameIndex(users, m.username);
      MergedAll(users, ms + [m])
        == if k == -1 then MergedAll(users, ms) else MergedAll(users, ms)[k := MergeMock(users[k], m)]
  {
    var k := UsernameIndex(users, m.username);
    forall i | 0 <= i < |users|
      ensures Merged(users, ms + [m], i) == if i == k then MergeMock(users[i], m) else Merged(users, ms, i)
    {
      MergedStep(users, ms, m, i);
    }
  }

  lemma UpdateAppend<T>(a: seq<T>, b: seq<T>, k: int, v: T)
    requires 0 <= k < |a|
    ensures a[k := v] + b == (a + b)[k := v]
  {
  }

  /** One loop step on the described result gives the described result for
      one more demo account, and changes something iff that account is effective. */
  lemma ExpectedStep(users: seq<AppUser>, ms: seq<AppUser>, m: AppUser)
    requires DistinctUsernames(ms + [m])
    ensures SyncOne(Expected(users, ms), m).0 == Expected(users, ms + [m])
    ensures SyncOne(Expected(users, ms), m).1 == Effective(users, m)
  {
    forall j | 0 <= j < |ms|
      ensures ms[j].username != m.username
    {
      assert (ms + [m])[j] == ms[j] && (ms + [m])[|ms|] == m;
    }
    IndexAfterMerge(users, ms, m.username);
    MergedAllStep(users, ms, m);
    MissingAppend(users, ms, m);
    if UsernameIndex(users, m.username) != -1 {
      ExpectedStepPresent(users, ms, m);
    }
  }

  lemma ExpectedStepPresent(users: seq<AppUser>, ms: seq<AppUser>, m: AppUser)
    requires forall j :: 0 <= j < |ms| ==> ms[j].username != m.username
    requires UsernameIndex(users, m.username) != -1
    requires MergedAll(users, ms + [m])
      == MergedAll(users, ms)[UsernameIndex(users, m.username) := MergeMock(users[UsernameIndex(users, m.username)], m)]
    requires Missing(users, ms + [m]) == Missing(users, ms)
    requires UsernameIndex(Expected(users, ms), m.username) == UsernameIndex(users, m.username)
    ensures SyncOne(Expected(users, ms), m).0 == Expected(users, ms + [m])
    ensures SyncOne(Expected(users, ms), m).1 == Effective(users, m)
  {
    var k := UsernameIndex(users, m.username);
    var e := Expected(users, ms);
    assert UsernameIndex(ms, users[k].username) == -1;
    assert e[k] == MergedAll(users, ms)[k] == users[k];
    UpdateAppend(MergedAll(users, ms), Missing(users, ms), k, MergeMock(users[k], m));
  }

  /** Some account of `ms + [m]` is effective iff one of `ms` is or `m` is. */
  lemma AnyEffectiveSnoc(users: seq<AppUser>, ms: seq<AppUser>, m: AppUser)
    ensures (exists j :: 0 <= j < |ms + [m]| && Effective(users, (ms + [m])[j]))
        <==> (exists j :: 0 <= j < |ms| && Effective(users, ms[j])) || Effective(users, m)
  {
    var all := ms + [m];
    if exists j :: 0 <= j < |ms| && Effective(users, ms[j]) {
      var j :| 0 <= j < |ms| && Effective(users, ms[j]);
      assert all[j] == ms[j];
    }
    if exists j :: 0 <= j < |all| && Effective(users, all[j]) {
      var j :| 0 <= j < |all| && Effective(users, all[j]);
      if j < |ms| {
        assert all[j] == ms[j];
      }
    }
    assert all[|ms|] == m;
  }

  /** The loop computes `Expected`, and reports a change exactly when some demo
      account was effective. Demo usernames are assumed distinct. */
  lemma {:induction false} SyncAllSpec(users: seq<AppUser>, mocks: seq<AppUser>)
    requires DistinctUsernames(mocks)
    ensures SyncAll(users, mocks).0 == Expected(users, mocks)
    ensures SyncAll(users, mocks).1 <==> exists j :: 0 <= j < |mocks| && Effective(users, mocks[j])
  {
    if mocks == [] {
      assert Expected(users, mocks) == users;
    } else {
      var ms, m := mocks[..|mocks| - 1], mocks[|mocks| - 1];
      assert mocks == ms + [m];
      assert DistinctUsernames(ms) by {
        forall i, j | 0 <= i < j < |ms|
          ensures ms[i].username != ms[j].username
        {
          assert ms[i] == mocks[i] && ms[j] == mocks[j];
        }
      }
      SyncAllSpec(users, ms);
      ExpectedStep(users, ms, m);
      AnyEffectiveSnoc(users, ms, m);
    }
  }

  /** After the merge every demo account's username is present, and every
      stored account keeps its username and its place. */
  lemma MocksPresent(users: seq<AppUser>, mocks: seq<AppUser>)
    ensures forall j :: 0 <= j < |mocks| ==> UsernameIndex(Expected(users, mocks), mocks[j].username) != -1
    ensures |Expected(users, mocks)| >= |users|
    ensures forall i :: 0 <= i < |users| ==> Expected(users, mocks)[i].username == users[i].username
  {
    var e := Expected(users, mocks);
    ExpectedUsernames(users, mocks);
    forall j | 0 <= j < |mocks|
      ensures UsernameIndex(e, mocks[j].username) != -1
    {
      var k := UsernameIndex(users, mocks[j].username);
      if k == -1 {
        assert Absent(users, mocks[j]);
        var m := mocks[j];
        assert m in Missing(users, mocks);
        var t :| 0 <= t < |Missing(users, mocks)| && Missing(users, mocks)[t] == m;
        assert e[|users| + t] == m;
      } else {
        assert e[k].username == mocks[j].username;
      }
    }
  }

  class UserRepository {
    const store: DataSyncService<Doc>
    /** The built-in demo accounts. */
    const mocks: seq<AppUser>

    constructor(store: DataSyncService<Doc>, mocks: seq<AppUser>)
      ensures this.store == store && this.mocks == mocks
    {
      this.store := store;
      this.mocks := mocks;
    }

    /** The users `init` starts from: the stored list, or none. */
    function Saved(): (r: seq<AppUser>)
      reads store
      ensures r == [] || (UsersKey in store.items && store.items[UsersKey] == Json(UserList(r)))
      ensures UsersKey in store.items && store.items[UsersKey].Json? && store.items[UsersKey].value.UserList? ==>
        r == store.items[UsersKey].value.users
    {
      var d := store.GetItem(UsersKey, UserList([]));
      if d.UserList? then d.users else []
    }

    /** `getUsers()`: the stored list, or the demo accounts when nothing usable is stored. */
    function GetUsers(): (r: seq<AppUser>)
      reads this, store
      ensures !(UsersKey in store.items && store.items[UsersKey].Json?) ==> r == mocks
      ensures UsersKey in store.items && store.items[UsersKey].Json? && store.items[UsersKey].value.UserList? ==>
        r == store.items[UsersKey].value.users
      ensures UsersKey in store.items && store.items[UsersKey].Json? && !store.items[UsersKey].value.UserList? ==> r == []
    {
      var d := store.GetItem(UsersKey, UserList(mocks));
      if d.UserList? then d.users else []
    }

    /** `saveUsers(users)`. */
    method SaveUsers(users: seq<AppUser>, accepted: bool)
      modifies store`items, store`events
      ensures store.Wrote(UsersKey, UserList(users), accepted)
      ensures accepted ==> GetUsers() == users && Saved() == users
    {
      store.SetItem(UsersKey, UserList(users), accepted);
    }

    /** `init()`, run by the constructor: an empty store receives the demo
        accounts; otherwise the demo accounts are merged in (as `SyncAll`)
        and the list is written only when the merge changed something. */
    method Init(accepted: bool)
      modifies store`items, store`events
      ensures old(Saved()) == [] ==> store.Wrote(UsersKey, UserList(mocks), accepted)
      ensures old(Saved()) != [] && SyncAll(old(Saved()), mocks).1 ==>
        store.Wrote(UsersKey, UserList(SyncAll(old(Saved()), mocks).0), accepted)
      ensures old(Saved()) != [] && !SyncAll(old(Saved()), mocks).1 ==> unchanged(store)
    {
      var savedUsers := Saved();
      if |savedUsers| == 0 {
        SaveUsers(mocks, accepted);
        return;
      }
      var changed := false;
      var updatedUsers := savedUsers;
      var i := 0;
      while i < |mocks|
        invariant 0 <= i <= |mocks|
        invariant (updatedUsers, changed) == SyncAll(savedUsers, mocks[..i])
      {
        var mockUser := mocks[i];
        var existingIndex := UsernameIndex(updatedUsers, mockUser.username);
        if existingIndex == -1 {
          updatedUsers := updatedUsers + [mockUser];
          changed := true;
        } else {
          var existing := updatedUsers[existingIndex];
          if (Truthy(mockUser.department) && !Truthy(existing.department)) || mockUser.fullName != existing.fullName {
            updatedUsers := updatedUsers[existingIndex := existing.(
              department := if Truthy(mockUser.department) then mockUser.department else existing.department,
              fullName := mockUser.fullName)];
            changed := true;
          }
        }
        assert mocks[..i + 1][..i] == mocks[..i];
        i := i + 1;
      }
      assert mocks[..i] == mocks;
      if changed {
        SaveUsers(updatedUsers, accepted);
      }
    }
  }
}
