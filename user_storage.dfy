/**
 * The browser-side user list (`userStorage`): users kept under one storage
 * key, with lookups by id and email, creation with an email-uniqueness check,
 * partial update, deletion guarded so that the last administrator stays, and
 * password change. The stored list is the field `users`; the clock and the id
 * generator are parameters.
 */
module UserStorage {
  import opened Wrappers

  datatype Role = Manager | Admin

  datatype StoredUser = StoredUser(
    id: string,
    email: string,
    name: Option<string>,       // string | null
    role: Role,
    createdAt: Option<string>,  // string | null
    password: Option<string>    // optional
  )

  /** The data handed to `create`: a user without id and creation time. */
  datatype NewUser = NewUser(email: string, name: Option<string>, role: Role, password: Option<string>)

  /** A partial user: each `Some` field is supplied and overwrites the stored one. */
  datatype UserUpdates = UserUpdates(
    id: Option<string>,
    email: Option<string>,
    name: Option<Option<string>>,
    role: Option<Role>,
    createdAt: Option<Option<string>>,
    password: Option<string>
  )

  /** The two errors the storage throws. */
  datatype StorageError = EmailAlreadyExists | LastAdministrator

  /** The initial list: one administrator and one manager, both created at `createdAt`. */
  function DefaultUsers(createdAt: string): seq<StoredUser> {
    [ StoredUser("1", "admin@company.com", Some("Администратор"), Admin, Some(createdAt), Some("password")),
      StoredUser("2", "manager@company.com", Some("Менеджер"), Manager, Some(createdAt), Some("password")) ]
  }

  predicate EmailsDistinct(users: seq<StoredUser>) {
    forall i, j :: 0 <= i < j < |users| ==> users[i].email != users[j].email
  }

  predicate IdsDistinct(users: seq<StoredUser>) {
    forall i, j :: 0 <= i < j < |users| ==> users[i].id != users[j].id
  }

  /** The two fields the storage looks a user up by. */
  datatype Lookup = ById | ByEmail

  function FieldOf(u: StoredUser, field: Lookup): string {
    match field
    case ById => u.id
    case ByEmail => u.email
  }

  /** `findIndex` on one field: the first position whose field is `value`, or -1. */
  function IndexOf(users: seq<StoredUser>, field: Lookup, value: string): (i: int)
    ensures -1 <= i < |users|
    ensures i >= 0 ==> FieldOf(users[i], field) == value && forall j :: 0 <= j < i ==> FieldOf(users[j], field) != value
    ensures i == -1 <==> forall j :: 0 <= j < |users| ==> FieldOf(users[j], field) != value
  {
    if |users| == 0 then -1
    else if FieldOf(users[0], field) == value then 0
    else
      var k := IndexOf(users[1..], field, value);
      if k == -1 then -1 else k + 1
  }

  /** `find(...) || null`: the first user at the index, or none. */
  function At(users: seq<StoredUser>, i: int): Option<StoredUser>
    requires -1 <= i < |users|
  {
    if i == -1 then None else Some(users[i])
  }

  /** `users.some(u => u.email === email)`. */
  predicate EmailTaken(users: seq<StoredUser>, email: string) {
    exists j :: 0 <= j < |users| && users[j].email == email
  }

  /** `users.some(u => u.email === email && u.id !== id)`. */
  predicate EmailTakenByOther(users: seq<StoredUser>, email: string, id: string) {
    exists j :: 0 <= j < |users| && users[j].email == email && users[j].id != id
  }

  /** `{ ...user, ...updates }`. */
  function Merge(u: StoredUser, upd: UserUpdates): StoredUser {
    StoredUser(
      if upd.id.Some? then upd.id.value else u.id,
      if upd.email.Some? then upd.email.value else u.email,
      if upd.name.Some? then upd.name.value else u.name,
      if upd.role.Some? then upd.role.value else u.role,
      if upd.createdAt.Some? then upd.createdAt.value else u.createdAt,
      if upd.password.Some? then upd.password else u.password)
  }

  /**
   * The email guard of `update`: it runs only when a truthy (non-empty) email
   * is supplied that differs from the stored one, and then rejects an email
   * that a user with a different id already has.
   */
  predicate UpdateConflict(users: seq<StoredUser>, index: int, id: string, upd: UserUpdates)
    requires 0 <= index < |users|
  {
    && upd.email.Some? && upd.email.value != "" && upd.email.value != users[index].email
    && EmailTakenByOther(users, upd.email.value, id)
  }

  /** `users.filter(u => u.role === "admin").length`. */
  function AdminCount(users: seq<StoredUser>): nat {
    if |users| == 0 then 0
    else (if users[0].role == Admin then 1 else 0) + AdminCount(users[1..])
  }

  /** `users.filter(u => u.id !== id)`: drops exactly the users with that id, keeping the order of the rest. */
  function WithoutId(users: seq<StoredUser>, id: string): (r: seq<StoredUser>)
    ensures |r| <= |users|
    ensures |r| == |users| <==> forall j :: 0 <= j < |users| ==> users[j].id != id
    ensures forall u :: u in r <==> u in users && u.id != id
  {
    if |users| == 0 then []
    else
      var rest := WithoutId(users[1..], id);
      assert forall u :: u in users <==> u == users[0] || u in users[1..];
      if users[0].id == id then rest else [users[0]] + rest
  }

  /** Number of administrators carrying `id`. */
  function AdminsWithId(users: seq<StoredUser>, id: string): nat {
    if |users| == 0 then 0
    else (if users[0].role == Admin && users[0].id == id then 1 else 0) + AdminsWithId(users[1..], id)
  }

  class UserStore {
    /** The list kept in browser storage. */
    var users: seq<StoredUser>

    /** A storage with nothing saved yet holds the default users. */
    constructor (createdAt: string)
      ensures users == DefaultUsers(createdAt)
    {
      users := DefaultUsers(createdAt);
    }

    /** `getById`: the first user with that id, or null. */
    function GetById(id: string): (r: Option<StoredUser>)
      reads this
      ensures r.Some? ==> exists i :: 0 <= i < |users| && r.value == users[i] && users[i].id == id
                                       && forall j :: 0 <= j < i ==> users[j].id != id
      ensures r.None? <==> forall j :: 0 <= j < |users| ==> users[j].id != id
    {
      At(users, IndexOf(users, ById, id))
    }

    /** `getByEmail`: the first user with that email, or null. */
    function GetByEmail(email: string): (r: Option<StoredUser>)
      reads this
      ensures r.Some? ==> exists i :: 0 <= i < |users| && r.value == users[i] && users[i].email == email
                                       && forall j :: 0 <= j < i ==> users[j].email != email
      ensures r.None? <==> !EmailTaken(users, email)
    {
      At(users, IndexOf(users, ByEmail, email))
    }

    /**
     * `create`: throws when any user already has the email; otherwise appends
     * exactly one user, carrying the given id and creation time, and returns it.
     */
    method Create(data: NewUser, newId: string, createdAt: string) returns (r: Result<StoredUser, StorageError>)
      modifies this
      ensures r.Failure? <==> EmailTaken(old(users), data.email)
      ensures r.Failure? ==> r.error == EmailAlreadyExists && users == old(users)
      ensures r.Success? ==>
        && r.value == StoredUser(newId, data.email, data.name, data.role, Some(createdAt), data.password)
        && users == old(users) + [r.value]
      ensures EmailsDistinct(old(users)) ==> EmailsDistinct(users)
    {
      if exists j :: 0 <= j < |users| && users[j].email == data.email {
        return Failure(EmailAlreadyExists);
      }
      var newUser := StoredUser(newId, data.email, data.name, data.role, Some(createdAt), data.password);
      if EmailsDistinct(users) {
        CreateKeepsEmailsDistinct(users, newUser);
      }
      users := users + [newUser];
      r := Success(newUser);
    }

    /**
     * `update`: null for an unknown id; throws when the email guard fires;
     * otherwise overwrites the supplied fields of the first user with that id
     * and returns the updated user.
     */
    method Update(id: string, upd: UserUpdates) returns (r: Result<Option<StoredUser>, StorageError>)
      modifies this
      ensures var i := IndexOf(old(users), ById, id);
        && (i == -1 ==> r == Success(None) && users == old(users))
        && (i >= 0 && UpdateConflict(old(users), i, id, upd) ==>
              r == Failure(EmailAlreadyExists) && users == old(users))
        && (i >= 0 && !UpdateConflict(old(users), i, id, upd) ==>
              users == old(users)[i := Merge(old(users)[i], upd)] && r == Success(Some(users[i])))
      ensures EmailsDistinct(old(users)) && IdsDistinct(old(users)) && upd.email != Some("") ==> EmailsDistinct(users)
    {
      var index := IndexOf(users, ById, id);
      if index == -1 {
        return Success(None);
      }
      if upd.email.Some? && upd.email.value != "" && upd.email.value != users[index].email {
        if exists j :: 0 <= j < |users| && users[j].email == upd.email.value && users[j].id != id {
          return Failure(EmailAlreadyExists);
        }
      }
      if EmailsDistinct(users) && IdsDistinct(users) && upd.email != Some("") {
        UpdateKeepsEmailsDistinct(users, id, upd);
      }
      users := users[index := Merge(users[index], upd)];
      r := Success(Some(users[index]));
    }

    /**
     * `delete`: throws when the first user with that id is an administrator
     * and there is at most one administrator; otherwise removes every user
     * with that id and answers whether any was removed.
     */
    method Delete(id: string) returns (r: Result<bool, StorageError>)
      modifies this
      ensures var u := At(old(users), IndexOf(old(users), ById, id));
        r.Failure? <==> u.Some? && u.value.role == Admin && AdminCount(old(users)) <= 1
      ensures r.Failure? ==> r.error == LastAdministrator && users == old(users)
      ensures r.Success? ==> users == WithoutId(old(users), id)
      ensures r.Success? ==> (r.value <==> IndexOf(old(users), ById, id) != -1)
      ensures IdsDistinct(old(users)) && AdminCount(old(users)) >= 1 ==> AdminCount(users) >= 1
    {
      var user := At(users, IndexOf(users, ById, id));
      if user.Some? && user.value.role == Admin {
        var adminCount := AdminCount(users);
        if adminCount <= 1 {
          return Failure(LastAdministrator);
        }
      }
      var filtered := WithoutId(users, id);
      if IdsDistinct(users) && AdminCount(users) >= 1 {
        DeleteKeepsAnAdmin(users, id);
      }
      if |filtered| == |users| {
        assert filtered == users by { WithoutAbsentId(users, id); }
        return Success(false);
      }
      users := filtered;
      r := Success(true);
    }

    /** `changePassword`: false for an unknown id; otherwise sets only that user's password. */
    method ChangePassword(id: string, newPassword: string) returns (ok: bool)
      modifies this
      ensures var i := IndexOf(old(users), ById, id);
        && (ok <==> i != -1)
        && (i == -1 ==> users == old(users))
        && (i >= 0 ==> users == old(users)[i := old(users)[i].(password := Some(newPassword))])
    {
      var index := IndexOf(users, ById, id);
      if index == -1 {
        return false;
      }
      users := users[index := users[index].(password := Some(newPassword))];
      ok := true;
    }
  }

  /** The default list has distinct ids and emails and exactly one administrator. */
  lemma DefaultUsersWellFormed(createdAt: string)
    ensures EmailsDistinct(DefaultUsers(createdAt)) && IdsDistinct(DefaultUsers(createdAt))
    ensures AdminCount(DefaultUsers(createdAt)) == 1
  {
    var d := DefaultUsers(createdAt);
    assert d[0].email[0] == 'a' && d[1].email[0] == 'm';
    assert d[0].id[0] == '1' && d[1].id[0] == '2';
    assert AdminCount(d[1..][1..]) == 0;
    assert AdminCount(d[1..]) == 0;
  }

  /** Appending a user whose email is not taken keeps the emails pairwise distinct. */
  lemma CreateKeepsEmailsDistinct(users: seq<StoredUser>, u: StoredUser)
    requires EmailsDistinct(users) && !EmailTaken(users, u.email)
    ensures EmailsDistinct(users + [u])
  {
  }

  /**
   * A successful update with a non-empty email keeps the emails pairwise
   * distinct, provided the ids are distinct (the guard only looks at users with
   * a different id).
   */
  lemma UpdateKeepsEmailsDistinct(users: seq<StoredUser>, id: string, upd: UserUpdates)
    requires EmailsDistinct(users) && IdsDistinct(users)
    requires IndexOf(users, ById, id) >= 0
    requires !UpdateConflict(users, IndexOf(users, ById, id), id, upd)
    requires upd.email != Some("")
    ensures var i := IndexOf(users, ById, id); EmailsDistinct(users[i := Merge(users[i], upd)])
  {
    var i := IndexOf(users, ById, id);
    var after := users[i := Merge(users[i], upd)];
    forall a, b | 0 <= a < b < |after|
      ensures after[a].email != after[b].email
    {
      if a != i && b != i {
      } else if upd.email.Some? && upd.email.value != users[i].email {
        var other := if a == i then b else a;
        assert users[other].id != id;
      }
    }
  }

  /**
   * The empty email slips past the guard of `update`: with a user whose email
   * is empty already stored, giving a second user the empty email yields two
   * users with the same email.
   */
  lemma EmptyEmailUpdateCanDuplicate()
    ensures var users := [ StoredUser("1", "", None, Admin, None, None),
                           StoredUser("2", "b@c.d", None, Manager, None, None) ];
      var upd := UserUpdates(None, Some(""), None, None, None, None);
      && EmailsDistinct(users) && IdsDistinct(users)
      && IndexOf(users, ById, "2") == 1
      && !UpdateConflict(users, 1, "2", upd)
      && !EmailsDistinct(users[1 := Merge(users[1], upd)])
  {
    var users := [ StoredUser("1", "", None, Admin, None, None),
                   StoredUser("2", "b@c.d", None, Manager, None, None) ];
    assert users[0].id[0] != users[1].id[0];
    assert users[1..][0].id == "2";
    var after := users[1 := Merge(users[1], UserUpdates(None, Some(""), None, None, None, None))];
    assert after[0].email == after[1].email;
  }

  /** Filtering out an id no user has leaves the list as it was. */
  lemma {:induction false} WithoutAbsentId(users: seq<StoredUser>, id: string)
    requires forall j :: 0 <= j < |users| ==> users[j].id != id
    ensures WithoutId(users, id) == users
  {
    if |users| > 0 {
      WithoutAbsentId(users[1..], id);
    }
  }

  /** Removing the users with `id` removes exactly the administrators that carry it. */
  lemma {:induction false} AdminCountWithout(users: seq<StoredUser>, id: string)
    ensures AdminCount(users) == AdminCount(WithoutId(users, id)) + AdminsWithId(users, id)
  {
    if |users| > 0 {
      AdminCountWithout(users[1..], id);
      var rest := WithoutId(users[1..], id);
      if users[0].id != id {
        assert WithoutId(users, id) == [users[0]] + rest;
        assert ([users[0]] + rest)[1..] == rest;
      }
    }
  }

  /** With distinct ids, at most one administrator carries an id, and only if the first user with it is one. */
  lemma {:induction false} AdminsWithIdAtMostFound(users: seq<StoredUser>, id: string)
    requires IdsDistinct(users)
    ensures var u := At(users, IndexOf(users, ById, id));
      AdminsWithId(users, id) == if u.Some? && u.value.role == Admin then 1 else 0
  {
    if |users| > 0 {
      assert IdsDistinct(users[1..]);
      AdminsWithIdAtMostFound(users[1..], id);
      if users[0].id == id {
        assert forall j :: 0 <= j < |users[1..]| ==> users[1..][j].id != id by {
          forall j | 0 <= j < |users[1..]| ensures users[1..][j].id != id {
            assert users[1..][j] == users[j + 1];
          }
        }
        assert IndexOf(users[1..], ById, id) == -1;
      }
    }
  }

  /**
   * `delete` never takes the administrator count from at least one to zero:
   * when it goes ahead, the removed user is not an administrator or there were
   * at least two.
   */
  lemma DeleteKeepsAnAdmin(users: seq<StoredUser>, id: string)
    requires IdsDistinct(users) && AdminCount(users) >= 1
    requires var u := At(users, IndexOf(users, ById, id));
      !(u.Some? && u.value.role == Admin && AdminCount(users) <= 1)
    ensures AdminCount(WithoutId(users, id)) >= 1
  {
    AdminCountWithout(users, id);
    AdminsWithIdAtMostFound(users, id);
  }

  /**
   * With two users sharing an id, `delete` removes the last administrator:
   * the guard looks only at the first user with the id, a manager, and the
   * filter then drops both.
   */
  lemma DuplicateIdDeleteRemovesLastAdmin()
    ensures var users := [ StoredUser("x", "m@c.d", None, Manager, None, None),
                           StoredUser("x", "a@c.d", None, Admin, None, None) ];
      var u := At(users, IndexOf(users, ById, "x"));
      && AdminCount(users) == 1
      && !(u.Some? && u.value.role == Admin && AdminCount(users) <= 1)
      && AdminCount(WithoutId(users, "x")) == 0
  {
    var users := [ StoredUser("x", "m@c.d", None, Manager, None, None),
                   StoredUser("x", "a@c.d", None, Admin, None, None) ];
    assert AdminCount(users[1..][1..]) == 0;
    assert WithoutId(users[1..], "x") == [];
  }

  /**
   * With two users sharing an id, `update` can give the first of them the
   * other's email: the guard skips users with the same id.
   */
  lemma DuplicateIdUpdateCanDuplicate()
    ensures var users := [ StoredUser("x", "a@c.d", None, Admin, None, None),
                           StoredUser("x", "b@c.d", None, Manager, None, None) ];
      var upd := UserUpdates(None, Some("b@c.d"), None, None, None, None);
      && EmailsDistinct(users)
      && IndexOf(users, ById, "x") == 0
      && !UpdateConflict(users, 0, "x", upd)
      && !EmailsDistinct(users[0 := Merge(users[0], upd)])
  {
    var users := [ StoredUser("x", "a@c.d", None, Admin, None, None),
                   StoredUser("x", "b@c.d", None, Manager, None, None) ];
    assert users[0].email[0] != users[1].email[0];
    var after := users[0 := Merge(users[0], UserUpdates(None, Some("b@c.d"), None, None, None, None))];
    assert after[0].email == after[1].email;
  }
}
