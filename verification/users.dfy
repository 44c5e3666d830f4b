/** The user endpoints (backend/app/controllers/user.py): get, create, update
    and delete over the users table. Password hashing is a parameter. */
module Users {
  import opened Base
  import opened Strings

  /** A row of the users table. */
  datatype UserRow = UserRow(
    email: string,
    passwordHash: string,
    firstName: string,
    lastName: string,
    role: string,
    nativeLanguage: Option<string>,
    targetLanguage: Option<string>,
    proficiencyLevel: Option<string>,
    passwordChangedAt: Option<Time>,
    createdAt: Time,
    updatedAt: Option<Time>)

  /** The body of a create request. */
  datatype UserCreate = UserCreate(
    email: string,
    password: string,
    firstName: string,
    lastName: string,
    nativeLanguage: Option<string>,
    targetLanguage: Option<string>,
    proficiencyLevel: Option<string>)

  /** The fields a `UserUpdate` body can carry. */
  datatype Field = Email | FirstName | LastName | NativeLanguage | TargetLanguage | ProficiencyLevel | Password

  /** `model_dump(exclude_unset=True).items()`: the fields the client sent,
      each once, with their values (an explicit `null` is `None`). */
  type Update = seq<(Field, Option<string>)>

  predicate Distinct(items: Update) {
    forall i, j :: 0 <= i < j < |items| ==> items[i].0 != items[j].0
  }

  /** Why a request fails: an `HTTPException`, or the database refusing the
      commit (a `NOT NULL` column set to `None`, or an email another row has). */
  datatype Failure = Http(error: HttpError) | IntegrityError

  function NotFoundFor(id: Id): HttpError {
    HttpError(404, "User with id " + IntToString(id) + " not found")
  }

  const EmailTaken := HttpError(400, "Email already registered")

  predicate Registered(users: map<Id, UserRow>, email: string) {
    exists id :: id in users && users[id].email == email
  }

  /** No two rows share an email (the column is unique), and every id is below the next one. */
  predicate Valid(users: map<Id, UserRow>, nextId: Id) {
    && (forall a, b :: a in users && b in users && a != b ==> users[a].email != users[b].email)
    && (forall id :: id in users ==> id < nextId)
  }

  // ---------------------------------------------------------------------------
  // Get

  /** `get_user`. */
  function GetOutcome(users: map<Id, UserRow>, id: Id): (r: Result<UserRow, HttpError>)
    ensures r.Err? <==> id !in users
    ensures r.Err? ==> r.error == NotFoundFor(id)
    ensures r.Ok? ==> r.value == users[id]
  {
    if id in users then Ok(users[id]) else Err(NotFoundFor(id))
  }

  // ---------------------------------------------------------------------------
  // Create

  /** The `proficiency_level` column default. */
  const DefaultLevel := "beginner"

  /** What the insert stores for a column with a default: an attribute left
      at `None` is left out of the `INSERT`, so the default applies. */
  function InsertedOr(v: Option<string>, default: string): (r: Option<string>)
    ensures v.Some? ==> r == v
    ensures v.None? ==> r == Some(default)
  {
    if v.Some? then v else Some(default)
  }

  /** The row `create_user` inserts: the role, the creation time and a missing
      level come from the column defaults. */
  function NewRow(data: UserCreate, hash: string -> string, now: Time): UserRow {
    UserRow(data.email, hash(data.password), data.firstName, data.lastName, "student",
            data.nativeLanguage, data.targetLanguage, InsertedOr(data.proficiencyLevel, DefaultLevel),
            Some(now), now, None)
  }

  /** `create_user`: the new id and row, or 400 for a registered email. */
  function CreateOutcome(users: map<Id, UserRow>, nextId: Id, data: UserCreate, hash: string -> string, now: Time)
    : (r: Result<(Id, UserRow), HttpError>)
    ensures r.Err? <==> Registered(users, data.email)
    ensures r.Err? ==> r.error == EmailTaken
    ensures r.Ok? ==> r.value.0 == nextId && r.value.1.email == data.email && r.value.1.passwordHash == hash(data.password)
  {
    if Registered(users, data.email) then Err(EmailTaken) else Ok((nextId, NewRow(data, hash, now)))
  }

  function AfterCreate(users: map<Id, UserRow>, r: Result<(Id, UserRow), HttpError>): map<Id, UserRow> {
    if r.Ok? then users[r.value.0 := r.value.1] else users
  }

  // ---------------------------------------------------------------------------
  // Update

  /** A column value as the client sees it; the password is not a column. */
  function Column(row: UserRow, f: Field): Option<string>
    requires f != Password
  {
    match f
    case Email => Some(row.email)
    case FirstName => Some(row.firstName)
    case LastName => Some(row.lastName)
    case NativeLanguage => row.nativeLanguage
    case TargetLanguage => row.targetLanguage
    case ProficiencyLevel => row.proficiencyLevel
  }

  predicate NotNull(f: Field) {
    f == Email || f == FirstName || f == LastName
  }

  /** `setattr(user, f, v)` on a column. A `None` for a `NOT NULL` column is
      refused at commit (see `Refused`), so the row keeps its value here. */
  function AssignColumn(row: UserRow, f: Field, v: Option<string>): (r: UserRow)
    requires f != Password
    ensures !(NotNull(f) && v.None?) ==> Column(r, f) == v
    ensures forall g :: g != Password && g != f ==> Column(r, g) == Column(row, g)
    ensures r.passwordHash == row.passwordHash && r.passwordChangedAt == row.passwordChangedAt
    ensures r.role == row.role && r.createdAt == row.createdAt && r.updatedAt == row.updatedAt
  {
    match f
    case Email => row.(email := v.GetOr(row.email))
    case FirstName => row.(firstName := v.GetOr(row.firstName))
    case LastName => row.(lastName := v.GetOr(row.lastName))
    case NativeLanguage => row.(nativeLanguage := v)
    case TargetLanguage => row.(targetLanguage := v)
    case ProficiencyLevel => row.(proficiencyLevel := v)
  }

  /** One step of the update loop, with the password hashed as the handler
      intends: a new password is stored as its hash and stamps
      `password_changed_at`, as `create_user` does. */
  function SetAttr(row: UserRow, f: Field, v: Option<string>, hash: string -> string, now: Time): UserRow {
    if f != Password then AssignColumn(row, f, v)
    else if v.Some? then row.(passwordHash := hash(v.value), passwordChangedAt := Some(now))
    else row
  }

  /** The update loop over the sent fields, in order. */
  function ApplyAll(row: UserRow, items: Update, hash: string -> string, now: Time): UserRow
    decreases |items|
  {
    if |items| == 0 then row
    else
      var last := items[|items| - 1];
      SetAttr(ApplyAll(row, items[..|items| - 1], hash, now), last.0, last.1, hash, now)
  }

  /** The commit fails when a `NOT NULL` column is set to `None` or the email
      is set to one another row has. */
  predicate Refused(users: map<Id, UserRow>, id: Id, items: Update) {
    exists k :: 0 <= k < |items| &&
      ((NotNull(items[k].0) && items[k].1.None?) ||
       (items[k].0 == Email && items[k].1.Some? &&
        exists other :: other in users && other != id && users[other].email == items[k].1.value))
  }

  /** `updated_at` is set by the database when the row actually changed. */
  function Stamp(before: UserRow, after: UserRow, now: Time): UserRow {
    if after != before then after.(updatedAt := Some(now)) else after
  }

  /** `update_user` with the password hashed. */
  function UpdateOutcome(users: map<Id, UserRow>, id: Id, items: Update, hash: string -> string, now: Time)
    : (r: Result<UserRow, Failure>)
    ensures r == Err(Http(NotFoundFor(id))) <==> id !in users
    ensures r == Err(IntegrityError) <==> id in users && Refused(users, id, items)
    ensures r.Ok? && r.value != users[id] ==> r.value.updatedAt == Some(now)
  {
    if id !in users then Err(Http(NotFoundFor(id)))
    else if Refused(users, id, items) then Err(IntegrityError)
    else Ok(Stamp(users[id], ApplyAll(users[id], items, hash, now), now))
  }

  function AfterUpdate(users: map<Id, UserRow>, id: Id, r: Result<UserRow, Failure>): map<Id, UserRow> {
    if r.Ok? then users[id := r.value] else users
  }

  // ---------------------------------------------------------------------------
  // Update as the source writes it: `setattr(user, "password", ...)` sets a
  // plain attribute that is not a column, so the new password is dropped

  function SetAttrAsWritten(row: UserRow, f: Field, v: Option<string>): UserRow {
    if f != Password then AssignColumn(row, f, v) else row
  }

  function ApplyAllAsWritten(row: UserRow, items: Update): UserRow
    decreases |items|
  {
    if |items| == 0 then row
    else
      var last := items[|items| - 1];
      SetAttrAsWritten(ApplyAllAsWritten(row, items[..|items| - 1]), last.0, last.1)
  }

  function UpdateOutcomeAsWritten(users: map<Id, UserRow>, id: Id, items: Update, now: Time): (r: Result<UserRow, Failure>)
    ensures r == Err(Http(NotFoundFor(id))) <==> id !in users
    ensures r == Err(IntegrityError) <==> id in users && Refused(users, id, items)
    ensures r.Ok? ==> r.value.passwordHash == users[id].passwordHash && r.value.passwordChangedAt == users[id].passwordChangedAt
  {
    if id !in users then Err(Http(NotFoundFor(id)))
    else if Refused(users, id, items) then Err(IntegrityError)
    else
      AsWrittenKeepsPassword(users[id], items);
      Ok(Stamp(users[id], ApplyAllAsWritten(users[id], items), now))
  }

  /** A request that only changes the password succeeds and changes nothing:
      the stored hash stays the old one. */
  lemma PasswordUpdateIgnored(users: map<Id, UserRow>, id: Id, hash: string -> string, now: Time)
    requires id in users && hash("new-secret") != users[id].passwordHash
    ensures UpdateOutcomeAsWritten(users, id, [(Password, Some("new-secret"))], now) == Ok(users[id])
    ensures UpdateOutcome(users, id, [(Password, Some("new-secret"))], hash, now).Ok?
    ensures UpdateOutcome(users, id, [(Password, Some("new-secret"))], hash, now).value.passwordHash == hash("new-secret")
  {
    var items: Update := [(Password, Some("new-secret"))];
    assert items[..0] == [];
    assert !Refused(users, id, items) by {
      forall k | 0 <= k < |items| ensures items[k] == (Password, Some("new-secret")) { }
    }
  }

  /** As written, no update ever changes the stored password or its time stamp. */
  lemma {:induction false} AsWrittenKeepsPassword(row: UserRow, items: Update)
    ensures ApplyAllAsWritten(row, items).passwordHash == row.passwordHash
    ensures ApplyAllAsWritten(row, items).passwordChangedAt == row.passwordChangedAt
    decreases |items|
  {
    if |items| > 0 {
      AsWrittenKeepsPassword(row, items[..|items| - 1]);
    }
  }

  /** Without a new password the source and the corrected update agree. */
  lemma {:induction false} AsWrittenAgrees(row: UserRow, items: Update, hash: string -> string, now: Time)
    requires forall k :: 0 <= k < |items| ==> items[k].0 == Password ==> items[k].1.None?
    ensures ApplyAllAsWritten(row, items) == ApplyAll(row, items, hash, now)
    decreases |items|
  {
    if |items| > 0 {
      AsWrittenAgrees(row, items[..|items| - 1], hash, now);
    }
  }

  // ---------------------------------------------------------------------------
  // Delete

  /** `delete_user`: the table without the row, or 404. */
  function DeleteOutcome(users: map<Id, UserRow>, id: Id): (r: Result<map<Id, UserRow>, HttpError>)
    ensures r.Err? <==> id !in users
    ensures r.Err? ==> r.error == NotFoundFor(id)
    ensures r.Ok? ==> r.value.Keys == users.Keys - {id} && forall k :: k in r.value ==> r.value[k] == users[k]
  {
    if id !in users then Err(NotFoundFor(id)) else Ok(users - {id})
  }

  // ---------------------------------------------------------------------------
  // Properties

  /** A create fails with 400 exactly when the email is registered, and then
      the table is unchanged; otherwise the new row holds the password's hash,
      the sent fields, the role "student" and `password_changed_at` = now. */
  lemma CreateCases(users: map<Id, UserRow>, nextId: Id, data: UserCreate, hash: string -> string, now: Time)
    ensures var r := CreateOutcome(users, nextId, data, hash, now);
      && (r.Err? <==> Registered(users, data.email))
      && (r.Err? ==> r.error == EmailTaken && AfterCreate(users, r) == users)
      && (r.Ok? ==> r.value.0 == nextId && AfterCreate(users, r) == users[nextId := r.value.1])
      && (r.Ok? ==>
            var row := r.value.1;
            && row.passwordHash == hash(data.password)
            && row.email == data.email && row.firstName == data.firstName && row.lastName == data.lastName
            && row.nativeLanguage == data.nativeLanguage && row.targetLanguage == data.targetLanguage
            && (data.proficiencyLevel.Some? ==> row.proficiencyLevel == data.proficiencyLevel)
            && (data.proficiencyLevel.None? ==> row.proficiencyLevel == Some(DefaultLevel))
            && row.role == "student" && row.passwordChangedAt == Some(now) && row.createdAt == now
            && row.updatedAt.None?)
  {
  }

  /** A create keeps emails unique and ids below the counter. */
  lemma CreateKeepsValid(users: map<Id, UserRow>, nextId: Id, data: UserCreate, hash: string -> string, now: Time)
    requires Valid(users, nextId)
    ensures var r := CreateOutcome(users, nextId, data, hash, now);
      Valid(AfterCreate(users, r), if r.Ok? then nextId + 1 else nextId)
  {
  }

  /** What the update loop does to each field: a sent column takes the sent
      value, an unsent one keeps its value, a sent password is stored hashed,
      and the role and creation time never change. */
  lemma {:induction false} ApplyAllFields(row: UserRow, items: Update, hash: string -> string, now: Time)
    requires Distinct(items)
    requires forall k :: 0 <= k < |items| ==> !(NotNull(items[k].0) && items[k].1.None?)
    ensures var r := ApplyAll(row, items, hash, now);
      && (forall k :: 0 <= k < |items| && items[k].0 != Password ==> Column(r, items[k].0) == items[k].1)
      && (forall f :: f != Password && (forall k :: 0 <= k < |items| ==> items[k].0 != f) ==> Column(r, f) == Column(row, f))
      && (forall k :: 0 <= k < |items| && items[k].0 == Password && items[k].1.Some? ==>
            r.passwordHash == hash(items[k].1.value) && r.passwordChangedAt == Some(now))
      && ((forall k :: 0 <= k < |items| ==> !(items[k].0 == Password && items[k].1.Some?)) ==>
            r.passwordHash == row.passwordHash && r.passwordChangedAt == row.passwordChangedAt)
      && r.role == row.role && r.createdAt == row.createdAt && r.updatedAt == row.updatedAt
  {
    ApplyAllColumns(row, items, hash, now);
    ApplyAllPassword(row, items, hash, now);
  }

  lemma {:induction false} ApplyAllColumns(row: UserRow, items: Update, hash: string -> string, now: Time)
    requires Distinct(items)
    requires forall k :: 0 <= k < |items| ==> !(NotNull(items[k].0) && items[k].1.None?)
    ensures var r := ApplyAll(row, items, hash, now);
      && (forall k :: 0 <= k < |items| && items[k].0 != Password ==> Column(r, items[k].0) == items[k].1)
      && (forall f :: f != Password && (forall k :: 0 <= k < |items| ==> items[k].0 != f) ==> Column(r, f) == Column(row, f))
      && r.role == row.role && r.createdAt == row.createdAt && r.updatedAt == row.updatedAt
    decreases |items|
  {
    if |items| > 0 {
      var n := |items| - 1;
      var prefix := items[..n];
      assert forall k :: 0 <= k < n ==> prefix[k] == items[k];
      ApplyAllColumns(row, prefix, hash, now);
    }
  }

  lemma {:induction false} ApplyAllPassword(row: UserRow, items: Update, hash: string -> string, now: Time)
    requires Distinct(items)
    ensures var r := ApplyAll(row, items, hash, now);
      && (forall k :: 0 <= k < |items| && items[k].0 == Password && items[k].1.Some? ==>
            r.passwordHash == hash(items[k].1.value) && r.passwordChangedAt == Some(now))
      && ((forall k :: 0 <= k < |items| ==> !(items[k].0 == Password && items[k].1.Some?)) ==>
            r.passwordHash == row.passwordHash && r.passwordChangedAt == row.passwordChangedAt)
    decreases |items|
  {
    if |items| > 0 {
      var n := |items| - 1;
      var prefix := items[..n];
      assert forall k :: 0 <= k < n ==> prefix[k] == items[k];
      ApplyAllPassword(row, prefix, hash, now);
    }
  }

  /** A successful update sets exactly the sent fields, hashes a sent
      password, stamps `updated_at` whenever the row changed (and sets it to
      nothing else), and leaves everything else as it was. */
  lemma UpdateSetsExactly(users: map<Id, UserRow>, id: Id, items: Update, hash: string -> string, now: Time)
    requires Distinct(items)
    ensures var r := UpdateOutcome(users, id, items, hash, now);
      && (r == Err(Http(NotFoundFor(id))) <==> id !in users)
      && (r == Err(IntegrityError) <==> id in users && Refused(users, id, items))
      && (r.Ok? ==>
            var before := users[id];
            && (forall k :: 0 <= k < |items| && items[k].0 != Password ==> Column(r.value, items[k].0) == items[k].1)
            && (forall f :: f != Password && (forall k :: 0 <= k < |items| ==> items[k].0 != f) ==>
                  Column(r.value, f) == Column(before, f))
            && (forall k :: 0 <= k < |items| && items[k].0 == Password && items[k].1.Some? ==>
                  r.value.passwordHash == hash(items[k].1.value) && r.value.passwordChangedAt == Some(now))
            && r.value.role == before.role && r.value.createdAt == before.createdAt
            && (r.value != before ==> r.value.updatedAt == Some(now))
            && (r.value.updatedAt == before.updatedAt || r.value.updatedAt == Some(now)))
  {
    if id in users && !Refused(users, id, items) {
      assert forall k :: 0 <= k < |items| ==> !(NotNull(items[k].0) && items[k].1.None?);
      var before := users[id];
      var after := ApplyAll(before, items, hash, now);
      ApplyAllFields(before, items, hash, now);
      StampKeeps(before, after, now);
    }
  }

  /** Stamping touches `updated_at` alone. */
  lemma StampKeeps(before: UserRow, after: UserRow, now: Time)
    ensures var r := Stamp(before, after, now);
      && (forall f :: f != Password ==> Column(r, f) == Column(after, f))
      && r.passwordHash == after.passwordHash && r.passwordChangedAt == after.passwordChangedAt
      && r.role == after.role && r.createdAt == after.createdAt
      && (r != before ==> r.updatedAt == Some(now))
      && (r.updatedAt == after.updatedAt || r.updatedAt == Some(now))
  {
  }

  /** A successful update keeps emails unique. */
  lemma UpdateKeepsValid(users: map<Id, UserRow>, nextId: Id, id: Id, items: Update, hash: string -> string, now: Time)
    requires Valid(users, nextId) && Distinct(items)
    ensures Valid(AfterUpdate(users, id, UpdateOutcome(users, id, items, hash, now)), nextId)
  {
    var r := UpdateOutcome(users, id, items, hash, now);
    if r.Ok? {
      assert forall k :: 0 <= k < |items| ==> !(NotNull(items[k].0) && items[k].1.None?);
      ApplyAllFields(users[id], items, hash, now);
      var t := AfterUpdate(users, id, r);
      if exists k :: 0 <= k < |items| && items[k].0 == Email {
        var k :| 0 <= k < |items| && items[k].0 == Email;
        assert Column(r.value, Email) == items[k].1;
      } else {
        assert Column(r.value, Email) == Column(users[id], Email);
      }
      forall a, b | a in t && b in t && a != b
        ensures t[a].email != t[b].email
      {
      }
    }
  }

  /** A delete fails with 404 exactly for an unknown id; otherwise it removes
      that row and keeps every other one. */
  lemma DeleteRemovesOnly(users: map<Id, UserRow>, nextId: Id, id: Id)
    ensures var r := DeleteOutcome(users, id);
      && (r.Err? <==> id !in users)
      && (r.Err? ==> r.error == NotFoundFor(id))
      && (r.Ok? ==> r.value.Keys == users.Keys - {id} && forall other :: other in r.value ==> r.value[other] == users[other])
      && (Valid(users, nextId) && r.Ok? ==> Valid(r.value, nextId))
  {
  }

  /** The users table. */
  class UserTable {
    var users: map<Id, UserRow>
    var nextId: Id

    constructor ()
      ensures users == map[] && nextId == 1
    {
      users := map[];
      nextId := 1;
    }

    method GetUser(id: Id) returns (r: Result<UserRow, HttpError>)
      ensures r == GetOutcome(users, id)
    {
      if id !in users {
        return Err(NotFoundFor(id));
      }
      r := Ok(users[id]);
    }

    method CreateUser(data: UserCreate, hash: string -> string, now: Time) returns (r: Result<(Id, UserRow), HttpError>)
      requires Valid(users, nextId)
      modifies this
      ensures r == CreateOutcome(old(users), old(nextId), data, hash, now)
      ensures users == AfterCreate(old(users), r)
      ensures nextId == if r.Ok? then old(nextId) + 1 else old(nextId)
      ensures Valid(users, nextId)
    {
      CreateKeepsValid(users, nextId, data, hash, now);
      if exists id :: id in users && users[id].email == data.email {
        return Err(EmailTaken);
      }
      var row := NewRow(data, hash, now);
      users := users[nextId := row];
      r := Ok((nextId, row));
      nextId := nextId + 1;
    }

    /** The handler's `setattr` loop, then the commit. */
    method UpdateUser(id: Id, items: Update, hash: string -> string, now: Time) returns (r: Result<UserRow, Failure>)
      requires Valid(users, nextId) && Distinct(items)
      modifies this`users
      ensures r == UpdateOutcome(old(users), id, items, hash, now)
      ensures users == AfterUpdate(old(users), id, r)
      ensures Valid(users, nextId)
    {
      UpdateKeepsValid(users, nextId, id, items, hash, now);
      if id !in users {
        return Err(Http(NotFoundFor(id)));
      }
      var before := users[id];
      var user := before;
      for i := 0 to |items|
        invariant user == ApplyAll(before, items[..i], hash, now)
      {
        assert items[..i + 1][..i] == items[..i];
        var (field, value) := items[i];
        user := SetAttr(user, field, value, hash, now);
      }
      assert items[..|items|] == items;
      if Refused(users, id, items) {
        return Err(IntegrityError);
      }
      user := Stamp(before, user, now);
      users := users[id := user];
      r := Ok(user);
    }

    method DeleteUser(id: Id) returns (r: Result<(), HttpError>)
      requires Valid(users, nextId)
      modifies this`users
      ensures r.Err? <==> DeleteOutcome(old(users), id).Err?
      ensures r.Err? ==> r.error == DeleteOutcome(old(users), id).error
      ensures r.Ok? ==> users == DeleteOutcome(old(users), id).value
      ensures r.Err? ==> users == old(users)
      ensures Valid(users, nextId)
    {
      DeleteRemovesOnly(users, nextId, id);
      if id !in users {
        return Err(NotFoundFor(id));
      }
      users := users - {id};
      r := Ok(());
    }
  }
}
