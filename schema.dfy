/**
 * The four persisted tables (schemas/organization.py, schemas/user.py,
 * schemas/role.py, schemas/member.py): their rows, the defaults a column
 * takes when an insert does not set it, the store snapshot, the integrity
 * rules the tables declare, and the declared ON DELETE CASCADE rules.
 */
module Schema {
  import opened Wrappers

  /** Column width of every String(255) column. */
  const MaxStringLength: nat := 255

  /** An opaque JSON value, as stored in the JSON columns. */
  datatype JsonValue =
    | JNull
    | JBool(b: bool)
    | JNum(n: int)
    | JStr(s: string)
    | JArray(items: seq<JsonValue>)
    | JObject(fields: map<string, JsonValue>)

  type JsonObject = map<string, JsonValue>

  /** Python's `{}`. */
  const EmptyObject: JsonObject := map[]

  /** A row of table `organization`; `name` is not unique. */
  datatype Organization = Organization(
    name: string,
    status: int,
    personal: Option<bool>,
    settings: Option<JsonObject>,
    createdAt: Option<int>,
    updatedAt: Option<int>)

  /** A row of table `user`; `email` is unique across the table. */
  datatype User = User(
    email: string,
    password: string,
    profile: JsonObject,
    status: int,
    settings: Option<JsonObject>,
    createdAt: Option<int>,
    updatedAt: Option<int>)

  /** A row of table `role`; it belongs to exactly one organization. */
  datatype Role = Role(name: string, description: Option<string>, orgId: int)

  /** A row of table `member`: one user in one organization with one role. */
  datatype Member = Member(
    orgId: int,
    userId: int,
    roleId: int,
    status: int,
    settings: Option<JsonObject>,
    createdAt: Option<int>,
    updatedAt: Option<int>)

  /** A column value in an insert: left out (the column default applies) or given. */
  datatype Arg<T> = Omitted | Given(value: T)

  function ColumnValue<T>(a: Arg<T>, default: T): (v: T)
    ensures a.Given? ==> v == a.value
    ensures a.Omitted? ==> v == default
  {
    match a
    case Omitted => default
    case Given(x) => x
  }

  /**
   * A nullable column of a non-JSON type: an attribute set to None is left
   * out of the INSERT just like an omitted one, so the column default
   * applies. (A JSON column instead stores None as the JSON `null`, which
   * is `ColumnValue`.)
   */
  function NullableColumnValue<T>(a: Arg<Option<T>>, default: Option<T>): (v: Option<T>)
    ensures a.Given? && a.value.Some? ==> v == a.value
    ensures a.Omitted? || a.value.None? ==> v == default
  {
    if a.Given? && a.value.Some? then a.value else default
  }

  /**
   * An organization row as inserted: status 0, personal False and settings
   * {} by default; personal given as None also takes the default.
   */
  function NewOrganization(name: string, status: Arg<int>, personal: Arg<Option<bool>>,
                           settings: Arg<Option<JsonObject>>,
                           createdAt: Arg<Option<int>>, updatedAt: Arg<Option<int>>): (o: Organization)
    ensures o.name == name
    ensures o.status == ColumnValue(status, 0)
    ensures o.personal == NullableColumnValue(personal, Some(false))
    // a boolean column with a default never ends up null
    ensures o.personal.Some?
    ensures o.settings == ColumnValue(settings, Some(EmptyObject))
    ensures o.createdAt == NullableColumnValue(createdAt, None) && o.updatedAt == NullableColumnValue(updatedAt, None)
  {
    Organization(name, ColumnValue(status, 0), NullableColumnValue(personal, Some(false)),
                 ColumnValue(settings, Some(EmptyObject)),
                 NullableColumnValue(createdAt, None), NullableColumnValue(updatedAt, None))
  }

  /** A user row as inserted: profile {}, status 0 and settings {} by default. */
  function NewUser(email: string, password: string, profile: Arg<JsonObject>, status: Arg<int>,
                   settings: Arg<Option<JsonObject>>,
                   createdAt: Arg<Option<int>>, updatedAt: Arg<Option<int>>): (u: User)
    ensures u.email == email && u.password == password
    ensures u.profile == ColumnValue(profile, EmptyObject)
    ensures u.status == ColumnValue(status, 0)
    ensures u.settings == ColumnValue(settings, Some(EmptyObject))
    ensures u.createdAt == NullableColumnValue(createdAt, None) && u.updatedAt == NullableColumnValue(updatedAt, None)
  {
    User(email, password, ColumnValue(profile, EmptyObject), ColumnValue(status, 0),
         ColumnValue(settings, Some(EmptyObject)),
         NullableColumnValue(createdAt, None), NullableColumnValue(updatedAt, None))
  }

  /** A role row as inserted: the description has no default and stays null. */
  function NewRole(name: string, description: Arg<Option<string>>, orgId: int): (r: Role)
    ensures r.name == name && r.orgId == orgId
    ensures r.description == NullableColumnValue(description, None)
  {
    Role(name, NullableColumnValue(description, None), orgId)
  }

  /** A member row as inserted: status 0 and settings {} by default, timestamps null. */
  function NewMember(orgId: int, userId: int, roleId: int, status: Arg<int>,
                     settings: Arg<Option<JsonObject>>,
                     createdAt: Arg<Option<int>>, updatedAt: Arg<Option<int>>): (m: Member)
    ensures m.orgId == orgId && m.userId == userId && m.roleId == roleId
    ensures m.status == ColumnValue(status, 0)
    ensures m.settings == ColumnValue(settings, Some(EmptyObject))
    ensures m.createdAt == NullableColumnValue(createdAt, None) && m.updatedAt == NullableColumnValue(updatedAt, None)
  {
    Member(orgId, userId, roleId, ColumnValue(status, 0), ColumnValue(settings, Some(EmptyObject)),
           NullableColumnValue(createdAt, None), NullableColumnValue(updatedAt, None))
  }

  /** The contents of the four tables, each keyed by its integer primary key. */
  datatype Db = Db(
    users: map<int, User>,
    orgs: map<int, Organization>,
    roles: map<int, Role>,
    members: map<int, Member>)

  /** Some user row holds `email`. */
  predicate EmailTaken(users: map<int, User>, email: string) {
    exists id :: id in users && users[id].email == email
  }

  /** The unique constraint on `user.email`. */
  predicate EmailsUnique(users: map<int, User>) {
    forall a, b :: a in users && b in users && users[a].email == users[b].email ==> a == b
  }

  /** The three non-null foreign keys of a member row point at existing rows. */
  predicate MemberRefsValid(db: Db, m: Member) {
    m.orgId in db.orgs && m.userId in db.users && m.roleId in db.roles
  }

  /** Every foreign key of every member and role row points at an existing row. */
  predicate ReferencesValid(db: Db) {
    && (forall id :: id in db.members ==> MemberRefsValid(db, db.members[id]))
    && (forall id :: id in db.roles ==> db.roles[id].orgId in db.orgs)
  }

  predicate OrganizationFits(o: Organization) {
    |o.name| <= MaxStringLength
  }

  predicate UserFits(u: User) {
    |u.email| <= MaxStringLength && |u.password| <= MaxStringLength
  }

  predicate RoleFits(r: Role) {
    |r.name| <= MaxStringLength && (r.description.Some? ==> |r.description.value| <= MaxStringLength)
  }

  /** Every String(255) column holds at most 255 characters. */
  predicate ColumnsFit(db: Db) {
    && (forall id :: id in db.orgs ==> OrganizationFits(db.orgs[id]))
    && (forall id :: id in db.users ==> UserFits(db.users[id]))
    && (forall id :: id in db.roles ==> RoleFits(db.roles[id]))
  }

  /**
   * The state a commit accepts. The unique index on `user.email` holds on
   * every backend; foreign keys and column widths only where the backend
   * enforces them (`enforce`).
   */
  predicate Admits(enforce: bool, db: Db) {
    EmailsUnique(db.users) && (enforce ==> ReferencesValid(db) && ColumnsFit(db))
  }

  // What a commit of one staged change accepts, stated against an accepted state.

  lemma AdmitsInsertOrganization(enforce: bool, db: Db, id: int, o: Organization)
    requires Admits(enforce, db) && id !in db.orgs
    ensures Admits(enforce, db.(orgs := db.orgs[id := o])) <==> (!enforce || OrganizationFits(o))
  {
    var db' := db.(orgs := db.orgs[id := o]);
    if enforce && OrganizationFits(o) {
      assert forall k :: k in db'.roles ==> db'.roles[k].orgId in db'.orgs;
      assert forall k :: k in db'.orgs ==> OrganizationFits(db'.orgs[k]);
    }
    if Admits(enforce, db') && enforce {
      assert OrganizationFits(db'.orgs[id]);
    }
  }

  lemma AdmitsInsertUser(enforce: bool, db: Db, id: int, u: User)
    requires Admits(enforce, db) && id !in db.users && !EmailTaken(db.users, u.email)
    ensures Admits(enforce, db.(users := db.users[id := u])) <==> (!enforce || UserFits(u))
  {
    var db' := db.(users := db.users[id := u]);
    assert EmailsUnique(db'.users);
    if enforce && UserFits(u) {
      assert forall k :: k in db'.members ==> MemberRefsValid(db', db'.members[k]);
      assert forall k :: k in db'.users ==> UserFits(db'.users[k]);
    }
    if Admits(enforce, db') && enforce {
      assert UserFits(db'.users[id]);
    }
  }

  lemma AdmitsInsertRole(enforce: bool, db: Db, id: int, r: Role)
    requires Admits(enforce, db) && id !in db.roles
    ensures Admits(enforce, db.(roles := db.roles[id := r])) <==> (!enforce || (r.orgId in db.orgs && RoleFits(r)))
  {
    var db' := db.(roles := db.roles[id := r]);
    if enforce && r.orgId in db.orgs && RoleFits(r) {
      assert forall k :: k in db'.members ==> MemberRefsValid(db', db'.members[k]);
      assert forall k :: k in db'.roles ==> RoleFits(db'.roles[k]);
    }
    if Admits(enforce, db') && enforce {
      assert db'.roles[id].orgId in db'.orgs && RoleFits(db'.roles[id]);
    }
  }

  lemma AdmitsInsertMember(enforce: bool, db: Db, id: int, m: Member)
    requires Admits(enforce, db) && id !in db.members
    ensures Admits(enforce, db.(members := db.members[id := m])) <==> (!enforce || MemberRefsValid(db, m))
  {
    var db' := db.(members := db.members[id := m]);
    if Admits(enforce, db') && enforce {
      assert MemberRefsValid(db', db'.members[id]);
    }
  }

  lemma AdmitsRemoveMember(enforce: bool, db: Db, id: int)
    requires Admits(enforce, db)
    ensures Admits(enforce, db.(members := db.members - {id}))
  {
  }

  lemma AdmitsSetPassword(enforce: bool, db: Db, id: int, password: string)
    requires Admits(enforce, db) && id in db.users
    ensures Admits(enforce, db.(users := db.users[id := db.users[id].(password := password)]))
            <==> (!enforce || |password| <= MaxStringLength)
  {
    var db' := db.(users := db.users[id := db.users[id].(password := password)]);
    assert forall k :: k in db'.users ==> db'.users[k].email == db.users[k].email;
    assert EmailsUnique(db'.users);
    if enforce && |password| <= MaxStringLength {
      assert forall k :: k in db'.members ==> MemberRefsValid(db', db'.members[k]);
      assert forall k :: k in db'.users ==> UserFits(db'.users[k]);
    }
    if Admits(enforce, db') && enforce {
      assert UserFits(db'.users[id]);
    }
  }

  lemma AdmitsSetMemberRole(enforce: bool, db: Db, id: int, roleId: int)
    requires Admits(enforce, db) && id in db.members
    ensures Admits(enforce, db.(members := db.members[id := db.members[id].(roleId := roleId)]))
            <==> (!enforce || roleId in db.roles)
  {
    var db' := db.(members := db.members[id := db.members[id].(roleId := roleId)]);
    if Admits(enforce, db') && enforce {
      assert MemberRefsValid(db', db'.members[id]);
    }
  }

  // The declared ON DELETE CASCADE rules. No handler deletes a user, an
  // organization or a role; these are the store's rules for when one is.

  /**
   * Deleting an organization removes its roles (role.org_id cascades) and
   * every member that points at it directly (member.org_id cascades) or
   * through one of those roles (member.role_id cascades).
   */
  function DeleteOrganization(db: Db, id: int): (r: Db)
    ensures r.users == db.users
    ensures r.orgs == db.orgs - {id}
    ensures forall k :: k in r.roles <==> k in db.roles && db.roles[k].orgId != id
    ensures forall k :: k in r.roles ==> r.roles[k] == db.roles[k]
    ensures forall k :: k in r.members <==>
      (k in db.members && db.members[k].orgId != id &&
       !(db.members[k].roleId in db.roles && db.roles[db.members[k].roleId].orgId == id))
    ensures forall k :: k in r.members ==> r.members[k] == db.members[k]
    ensures ReferencesValid(db) ==> ReferencesValid(r)
  {
    var roles := map k | k in db.roles && db.roles[k].orgId != id :: db.roles[k];
    var members := map k | k in db.members && db.members[k].orgId != id &&
                           !(db.members[k].roleId in db.roles && db.roles[db.members[k].roleId].orgId == id)
                         :: db.members[k];
    Db(db.users, db.orgs - {id}, roles, members)
  }

  /** Deleting a user removes every member row that points at it. */
  function DeleteUser(db: Db, id: int): (r: Db)
    ensures r.users == db.users - {id} && r.orgs == db.orgs && r.roles == db.roles
    ensures forall k :: k in r.members <==> k in db.members && db.members[k].userId != id
    ensures forall k :: k in r.members ==> r.members[k] == db.members[k]
    ensures ReferencesValid(db) ==> ReferencesValid(r)
    ensures EmailsUnique(db.users) ==> EmailsUnique(r.users)
  {
    Db(db.users - {id}, db.orgs, db.roles,
       map k | k in db.members && db.members[k].userId != id :: db.members[k])
  }

  /** Deleting a role removes every member row that points at it. */
  function DeleteRole(db: Db, id: int): (r: Db)
    ensures r.users == db.users && r.orgs == db.orgs && r.roles == db.roles - {id}
    ensures forall k :: k in r.members <==> k in db.members && db.members[k].roleId != id
    ensures forall k :: k in r.members ==> r.members[k] == db.members[k]
    ensures ReferencesValid(db) ==> ReferencesValid(r)
  {
    Db(db.users, db.orgs, db.roles - {id},
       map k | k in db.members && db.members[k].roleId != id :: db.members[k])
  }

  /** After an organization is deleted, nothing refers to it any more. */
  lemma DeleteOrganizationLeavesNoDependents(db: Db, id: int)
    ensures var r := DeleteOrganization(db, id);
      && id !in r.orgs
      && (forall k :: k in r.roles ==> r.roles[k].orgId != id)
      && (forall k :: k in r.members ==> r.members[k].orgId != id)
  {
  }
}
