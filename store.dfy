/**
 * The sign-in, sign-up and membership handlers of routers/user_routers.py
 * over one database. The database is a `Store` whose four tables are
 * finite maps keyed by primary key. A commit either applies the staged
 * tables whole or, when the backend refuses them or fails, leaves the
 * committed tables as they were (the session's rollback). Sign-up commits
 * four times, so a failure after the first commit leaves the earlier rows
 * behind. Every failure, including the handlers' own 400 and 404 raises,
 * reaches the client as 500 "Internal server error", because each handler
 * ends with `except Exception`.
 */
module Membership {
  import opened Wrappers
  import opened Schema
  import opened Security
  import opened Requests

  /** What a handler returns on success. */
  datatype Payload =
    | Tokens(accessToken: string, refreshToken: string)
    | SignedUp(message: string, userId: int, orgId: int)
    | Done(message: string)

  /** The HTTP outcome of a handler: its JSON payload, or an HTTPException. */
  datatype Response = Ok(payload: Payload) | Err(status: int, detail: string)

  /** The one error any handler ever reports. */
  const InternalError: Response := Err(500, "Internal server error")

  /** The four commits of sign-up, in the order they happen. */
  datatype Step = OrganizationCommit | UserCommit | RoleCommit | MemberCommit

  datatype MailKind = InviteMail | PasswordUpdateMail

  /** One attempt to send a mail, and whether the SMTP server took it. */
  datatype MailEvent = MailEvent(kind: MailKind, to: string, delivered: bool)

  /** Python's `d or {}` for an optional dict: None (and {}) give {}. */
  function OrEmpty(d: Option<JsonObject>): (v: JsonObject)
    ensures d.Some? ==> v == d.value
    ensures d.None? ==> v == EmptyObject
  {
    if d.Some? then d.value else EmptyObject
  }

  // The rows the handlers build.

  /**
   * The organization sign-up inserts: status 0, the given personal flag
   * (an explicit null falls back to the column default False), settings
   * or {}.
   */
  function SignUpOrganization(req: SignUpRequest, now: int): (o: Organization)
    ensures o.name == req.organizationName && o.status == 0
    ensures o.personal == if req.personal.None? then Some(false) else req.personal
    ensures o.settings == Some(OrEmpty(req.organizationSettings))
    ensures o.createdAt == Some(now) && o.updatedAt == Some(now)
  {
    NewOrganization(req.organizationName, Given(0), Given(req.personal),
                    Given(Some(OrEmpty(req.organizationSettings))), Given(Some(now)), Given(Some(now)))
  }

  /** The user sign-up inserts: the password hashed, profile and settings or {}, status 0. */
  function SignUpUser(hash: string -> string, req: SignUpRequest, now: int): (u: User)
    ensures u.email == req.email && u.password == hash(req.password)
    ensures u.profile == OrEmpty(req.profile) && u.status == 0
    ensures u.settings == Some(OrEmpty(req.userSettings))
    ensures u.createdAt == Some(now) && u.updatedAt == Some(now)
  {
    NewUser(req.email, hash(req.password), Given(OrEmpty(req.profile)), Given(0),
            Given(Some(OrEmpty(req.userSettings))), Given(Some(now)), Given(Some(now)))
  }

  /** The role sign-up inserts: named "Owner", no description, in the new organization. */
  function OwnerRole(orgId: int): (r: Role)
    ensures r.name == "Owner" && r.description == None && r.orgId == orgId
    ensures RoleFits(r)
  {
    NewRole("Owner", Omitted, orgId)
  }

  /** The member sign-up inserts: status 0, settings {}, stamped with `now`. */
  function OwnerMember(orgId: int, userId: int, roleId: int, now: int): (m: Member)
    ensures m.orgId == orgId && m.userId == userId && m.roleId == roleId
    ensures m.status == 0 && m.settings == Some(EmptyObject)
    ensures m.createdAt == Some(now) && m.updatedAt == Some(now)
  {
    NewMember(orgId, userId, roleId, Given(0), Given(Some(EmptyObject)), Given(Some(now)), Given(Some(now)))
  }

  /** The member invite inserts: status 1, settings from the column default {}, no timestamps. */
  function InvitedMember(orgId: int, userId: int, roleId: int): (m: Member)
    ensures m.orgId == orgId && m.userId == userId && m.roleId == roleId
    ensures m.status == 1 && m.settings == Some(EmptyObject)
    ensures m.createdAt == None && m.updatedAt == None
  {
    NewMember(orgId, userId, roleId, Given(1), Omitted, Omitted, Omitted)
  }

  /**
   * How many of sign-up's four commits go through, given the commit (if
   * any) at which the database fails on its own. The organization and the
   * user can also be refused for an over-long column on a backend that
   * enforces widths; the role and the member always fit and always point
   * at the rows committed just before them.
   */
  function SignUpCommits(enforce: bool, org: Organization, user: User, failure: Option<Step>): (n: nat)
    ensures n <= 4
    ensures n >= 1 <==> failure != Some(OrganizationCommit) && (!enforce || OrganizationFits(org))
    ensures n >= 2 <==> n >= 1 && failure != Some(UserCommit) && (!enforce || UserFits(user))
    ensures n >= 3 <==> n >= 2 && failure != Some(RoleCommit)
    ensures n == 4 <==> n >= 3 && failure != Some(MemberCommit)
  {
    if failure == Some(OrganizationCommit) || (enforce && !OrganizationFits(org)) then 0
    else if failure == Some(UserCommit) || (enforce && !UserFits(user)) then 1
    else if failure == Some(RoleCommit) then 2
    else if failure == Some(MemberCommit) then 3
    else 4
  }

  /** The id of the user holding `email`. */
  ghost function UserWithEmail(users: map<int, User>, email: string): (id: int)
    requires EmailTaken(users, email)
    ensures id in users && users[id].email == email
  {
    var id :| id in users && users[id].email == email; id
  }

  /** With unique emails, a user holding `email` is the one `UserWithEmail` names. */
  lemma UserWithEmailIsUnique(users: map<int, User>, email: string, id: int)
    requires EmailsUnique(users) && id in users && users[id].email == email
    ensures UserWithEmail(users, email) == id
  {
  }

  class Store {
    var users: map<int, User>
    var orgs: map<int, Organization>
    var roles: map<int, Role>
    var members: map<int, Member>

    /** The ids the database hands out to the next inserted row of each table. */
    var nextUserId: int
    var nextOrgId: int
    var nextRoleId: int
    var nextMemberId: int

    /** Every mail the handlers tried to send, oldest first. */
    var outbox: seq<MailEvent>

    /** Whether the backend enforces foreign keys and String(255) widths. */
    const enforcesConstraints: bool
    const crypto: Crypto
    const secretKey: string

    /** The committed tables. */
    function Snapshot(): Db
      reads this
    {
      Db(users, orgs, roles, members)
    }

    /** Every id in use is below its counter, and the tables satisfy what the backend enforces. */
    ghost predicate Valid()
      reads this
    {
      && (forall id :: id in users ==> id < nextUserId)
      && (forall id :: id in orgs ==> id < nextOrgId)
      && (forall id :: id in roles ==> id < nextRoleId)
      && (forall id :: id in members ==> id < nextMemberId)
      && Admits(enforcesConstraints, Snapshot())
    }

    /**
     * An empty database whose keys start at 1; the signing key is read
     * from the environment once, as on import of the security module.
     */
    constructor (enforcesConstraints: bool, crypto: Crypto, env: map<string, string>)
      ensures Valid()
      ensures Snapshot() == Db(map[], map[], map[], map[]) && outbox == []
      ensures nextUserId == 1 && nextOrgId == 1 && nextRoleId == 1 && nextMemberId == 1
      ensures this.enforcesConstraints == enforcesConstraints && this.crypto == crypto
      ensures secretKey == (if "SECRET_KEY" in env then env["SECRET_KEY"] else DefaultSecretKey)
    {
      users, orgs, roles, members := map[], map[], map[], map[];
      nextUserId, nextOrgId, nextRoleId, nextMemberId := 1, 1, 1, 1;
      outbox := [];
      this.enforcesConstraints := enforcesConstraints;
      this.crypto := crypto;
      this.secretKey := SecretKey(env);
    }

    /**
     * `db.commit()` of the staged tables. The backend refuses tables that
     * break what it enforces; `failure` is a database error with a cause
     * outside the model (a lost connection, say). A refused commit is
     * rolled back: the committed tables stay as they were.
     */
    method Commit(staged: Db, failure: bool) returns (ok: bool)
      modifies this
      ensures ok <==> !failure && Admits(enforcesConstraints, staged)
      ensures Snapshot() == if ok then staged else old(Snapshot())
      ensures nextUserId == old(nextUserId) && nextOrgId == old(nextOrgId)
      ensures nextRoleId == old(nextRoleId) && nextMemberId == old(nextMemberId)
      ensures outbox == old(outbox)
    {
      ok := !failure && Admits(enforcesConstraints, staged);
      if ok {
        users, orgs, roles, members := staged.users, staged.orgs, staged.roles, staged.members;
      }
    }

    /** Appends one mail attempt; `delivered` is the SMTP outcome. */
    method SendMail(kind: MailKind, to: string, delivered: bool)
      modifies this
      ensures outbox == old(outbox) + [MailEvent(kind, to, delivered)]
      ensures Snapshot() == old(Snapshot())
      ensures nextUserId == old(nextUserId) && nextOrgId == old(nextOrgId)
      ensures nextRoleId == old(nextRoleId) && nextMemberId == old(nextMemberId)
    {
      outbox := outbox + [MailEvent(kind, to, delivered)];
    }

    /** `db.add(o)` and `db.commit()`: the new organization takes the next organization id. */
    method AddOrganization(o: Organization, failure: bool) returns (ok: bool)
      requires Valid()
      modifies this
      ensures Valid()
      ensures ok <==> !failure && (!enforcesConstraints || OrganizationFits(o))
      ensures orgs == (if ok then old(orgs)[old(nextOrgId) := o] else old(orgs))
      ensures nextOrgId == (if ok then old(nextOrgId) + 1 else old(nextOrgId))
      ensures users == old(users) && roles == old(roles) && members == old(members) && outbox == old(outbox)
      ensures nextUserId == old(nextUserId) && nextRoleId == old(nextRoleId) && nextMemberId == old(nextMemberId)
    {
      AdmitsInsertOrganization(enforcesConstraints, Snapshot(), nextOrgId, o);
      ok := Commit(Snapshot().(orgs := orgs[nextOrgId := o]), failure);
      if ok {
        nextOrgId := nextOrgId + 1;
      }
    }

    /** `db.add(u)` and `db.commit()` of a user whose email is free. */
    method AddUser(u: User, failure: bool) returns (ok: bool)
      requires Valid() && !EmailTaken(users, u.email)
      modifies this
      ensures Valid()
      ensures ok <==> !failure && (!enforcesConstraints || UserFits(u))
      ensures users == (if ok then old(users)[old(nextUserId) := u] else old(users))
      ensures nextUserId == (if ok then old(nextUserId) + 1 else old(nextUserId))
      ensures orgs == old(orgs) && roles == old(roles) && members == old(members) && outbox == old(outbox)
      ensures nextOrgId == old(nextOrgId) && nextRoleId == old(nextRoleId) && nextMemberId == old(nextMemberId)
    {
      AdmitsInsertUser(enforcesConstraints, Snapshot(), nextUserId, u);
      ok := Commit(Snapshot().(users := users[nextUserId := u]), failure);
      if ok {
        nextUserId := nextUserId + 1;
      }
    }

    /** `db.add(r)` and `db.commit()`: a role must point at an organization where keys are enforced. */
    method AddRole(r: Role, failure: bool) returns (ok: bool)
      requires Valid()
      modifies this
      ensures Valid()
      ensures ok <==> !failure && (!enforcesConstraints || (r.orgId in orgs && RoleFits(r)))
      ensures roles == (if ok then old(roles)[old(nextRoleId) := r] else old(roles))
      ensures nextRoleId == (if ok then old(nextRoleId) + 1 else old(nextRoleId))
      ensures users == old(users) && orgs == old(orgs) && members == old(members) && outbox == old(outbox)
      ensures nextUserId == old(nextUserId) && nextOrgId == old(nextOrgId) && nextMemberId == old(nextMemberId)
    {
      AdmitsInsertRole(enforcesConstraints, Snapshot(), nextRoleId, r);
      ok := Commit(Snapshot().(roles := roles[nextRoleId := r]), failure);
      if ok {
        nextRoleId := nextRoleId + 1;
      }
    }

    /** `db.add(m)` and `db.commit()`: a member must point at existing rows where keys are enforced. */
    method AddMember(m: Member, failure: bool) returns (ok: bool)
      requires Valid()
      modifies this
      ensures Valid()
      ensures ok <==> !failure && (!enforcesConstraints || MemberRefsValid(Snapshot(), m))
      ensures members == (if ok then old(members)[old(nextMemberId) := m] else old(members))
      ensures nextMemberId == (if ok then old(nextMemberId) + 1 else old(nextMemberId))
      ensures users == old(users) && orgs == old(orgs) && roles == old(roles) && outbox == old(outbox)
      ensures nextUserId == old(nextUserId) && nextOrgId == old(nextOrgId) && nextRoleId == old(nextRoleId)
    {
      AdmitsInsertMember(enforcesConstraints, Snapshot(), nextMemberId, m);
      ok := Commit(Snapshot().(members := members[nextMemberId := m]), failure);
      if ok {
        nextMemberId := nextMemberId + 1;
      }
    }

    /** `db.query(User).filter(User.email == email).first()`. */
    method FindUser(email: string) returns (found: Option<int>)
      requires Valid()
      ensures found.Some? <==> EmailTaken(users, email)
      ensures found.Some? ==> found.value == UserWithEmail(users, email)
    {
      if EmailTaken(users, email) {
        var id :| id in users && users[id].email == email;
        UserWithEmailIsUnique(users, email, id);
        found := Some(id);
      } else {
        found := None;
      }
    }

    /**
     * sign_in: the user with that email, if the password verifies against
     * the stored hash, gets an access token for `{"sub": email}` with no
     * expiry and a refresh token that expires in seven days. An unknown
     * email, a wrong password and a signing error all give the same 500.
     * Nothing is written.
     */
    method SignIn(req: SignInRequest, now: int) returns (r: Response)
      requires Valid()
      ensures r.Ok? <==>
        && EmailTaken(users, req.email)
        && crypto.verify(req.password, users[UserWithEmail(users, req.email)].password)
        && CreateAccessToken(crypto, secretKey, SubjectClaims(req.email), None, now).Success?
        && CreateAccessToken(crypto, secretKey, SubjectClaims(req.email), Some(RefreshTokenLifetime), now).Success?
      ensures r.Ok? ==> r.payload == Tokens(
        CreateAccessToken(crypto, secretKey, SubjectClaims(req.email), None, now).value,
        CreateAccessToken(crypto, secretKey, SubjectClaims(req.email), Some(RefreshTokenLifetime), now).value)
      ensures r.Err? ==> r == InternalError
    {
      var found := FindUser(req.email);
      if found.None? || !crypto.verify(req.password, users[found.value].password) {
        return InternalError;
      }
      var email := users[found.value].email;
      var access := CreateAccessToken(crypto, secretKey, SubjectClaims(email), None, now);
      var refresh := CreateAccessToken(crypto, secretKey, SubjectClaims(email), Some(RefreshTokenLifetime), now);
      if access.Failure? || refresh.Failure? {
        return InternalError;
      }
      return Ok(Tokens(access.value, refresh.value));
    }

    /**
     * The four commits of sign_up: the organization, the user, the "Owner"
     * role and the member, one at a time, stopping at the first that
     * fails. A failed commit rolls back only itself, so the rows committed
     * before it stay. `n` is how many went through.
     */
    method CommitSignUpRows(req: SignUpRequest, now: int, failure: Option<Step>) returns (n: nat)
      requires Valid() && !EmailTaken(users, req.email)
      modifies this
      ensures Valid()
      ensures var org := SignUpOrganization(req, now);
        var user := SignUpUser(crypto.hash, req, now);
        var orgId, userId, roleId, memberId := old(nextOrgId), old(nextUserId), old(nextRoleId), old(nextMemberId);
        && n == SignUpCommits(enforcesConstraints, org, user, failure)
        && orgs == (if n >= 1 then old(orgs)[orgId := org] else old(orgs))
        && nextOrgId == (if n >= 1 then orgId + 1 else orgId)
        && users == (if n >= 2 then old(users)[userId := user] else old(users))
        && nextUserId == (if n >= 2 then userId + 1 else userId)
        && roles == (if n >= 3 then old(roles)[roleId := OwnerRole(orgId)] else old(roles))
        && nextRoleId == (if n >= 3 then roleId + 1 else roleId)
        && members == (if n == 4 then old(members)[memberId := OwnerMember(orgId, userId, roleId, now)] else old(members))
        && nextMemberId == (if n == 4 then memberId + 1 else memberId)
        && outbox == old(outbox)
    {
      var org := SignUpOrganization(req, now);
      ghost var count := SignUpCommits(enforcesConstraints, org, SignUpUser(crypto.hash, req, now), failure);
      var orgId := nextOrgId;
      var ok := AddOrganization(org, failure == Some(OrganizationCommit));
      if !ok {
        assert count == 0;
        return 0;
      }
      var user := SignUpUser(crypto.hash, req, now);
      var userId := nextUserId;
      ok := AddUser(user, failure == Some(UserCommit));
      if !ok {
        assert count == 1;
        return 1;
      }
      var roleId := nextRoleId;
      ok := AddRole(OwnerRole(orgId), failure == Some(RoleCommit));
      if !ok {
        assert count == 2;
        return 2;
      }
      ok := AddMember(OwnerMember(orgId, userId, roleId, now), failure == Some(MemberCommit));
      if !ok {
        assert count == 3;
        return 3;
      }
      assert count == 4;
      return 4;
    }

    /**
     * sign_up. A taken email fails before anything is written. Otherwise
     * the four rows are committed one at a time, and after the fourth
     * commit one invitation mail is sent; a failed send still leaves all
     * four rows.
     */
    method SignUp(req: SignUpRequest, now: int, failure: Option<Step>, mailDelivered: bool) returns (r: Response)
      requires Valid()
      modifies this
      ensures Valid()
      ensures old(EmailTaken(users, req.email)) ==>
        && r == InternalError
        && Snapshot() == old(Snapshot()) && outbox == old(outbox)
        && nextUserId == old(nextUserId) && nextOrgId == old(nextOrgId)
        && nextRoleId == old(nextRoleId) && nextMemberId == old(nextMemberId)
      ensures !old(EmailTaken(users, req.email)) ==>
        var org := SignUpOrganization(req, now);
        var user := SignUpUser(crypto.hash, req, now);
        var n := SignUpCommits(enforcesConstraints, org, user, failure);
        var orgId, userId, roleId, memberId := old(nextOrgId), old(nextUserId), old(nextRoleId), old(nextMemberId);
        && orgs == (if n >= 1 then old(orgs)[orgId := org] else old(orgs))
        && nextOrgId == (if n >= 1 then orgId + 1 else orgId)
        && users == (if n >= 2 then old(users)[userId := user] else old(users))
        && nextUserId == (if n >= 2 then userId + 1 else userId)
        && roles == (if n >= 3 then old(roles)[roleId := OwnerRole(orgId)] else old(roles))
        && nextRoleId == (if n >= 3 then roleId + 1 else roleId)
        && members == (if n == 4 then old(members)[memberId := OwnerMember(orgId, userId, roleId, now)] else old(members))
        && nextMemberId == (if n == 4 then memberId + 1 else memberId)
        && outbox == (if n == 4 then old(outbox) + [MailEvent(InviteMail, req.email, mailDelivered)] else old(outbox))
        && r == (if n == 4 && mailDelivered
                 then Ok(SignedUp("User signed up successfully", userId, orgId))
                 else InternalError)
    {
      if EmailTaken(users, req.email) {
        return InternalError;
      }
      var userId, orgId := nextUserId, nextOrgId;
      var n := CommitSignUpRows(req, now, failure);
      if n < 4 {
        return InternalError;
      }
      SendMail(InviteMail, req.email, mailDelivered);
      if !mailDelivered {
        return InternalError;
      }
      return Ok(SignedUp("User signed up successfully", userId, orgId));
    }

    /**
     * reset_password: the user with that email gets the hash of the new
     * password, and nothing else about the row changes (updated_at
     * included). After the commit a notification mail is sent.
     */
    method ResetPassword(req: ResetPasswordRequest, failure: bool, mailDelivered: bool) returns (r: Response)
      requires Valid()
      modifies this
      ensures Valid()
      ensures orgs == old(orgs) && roles == old(roles) && members == old(members)
      ensures nextUserId == old(nextUserId) && nextOrgId == old(nextOrgId)
      ensures nextRoleId == old(nextRoleId) && nextMemberId == old(nextMemberId)
      ensures !old(EmailTaken(users, req.email)) ==>
        r == InternalError && users == old(users) && outbox == old(outbox)
      ensures old(EmailTaken(users, req.email)) ==>
        var id := old(UserWithEmail(users, req.email));
        var committed := !failure && (!enforcesConstraints || |crypto.hash(req.newPassword)| <= MaxStringLength);
        && users == (if committed then old(users)[id := old(users)[id].(password := crypto.hash(req.newPassword))]
                     else old(users))
        && outbox == (if committed then old(outbox) + [MailEvent(PasswordUpdateMail, req.email, mailDelivered)]
                      else old(outbox))
        && r == (if committed && mailDelivered then Ok(Done("Password updated successfully")) else InternalError)
    {
      var found := FindUser(req.email);
      if found.None? {
        return InternalError;
      }
      var id := found.value;
      var password := crypto.hash(req.newPassword);
      AdmitsSetPassword(enforcesConstraints, Snapshot(), id, password);
      var ok := Commit(Snapshot().(users := users[id := users[id].(password := password)]), failure);
      if !ok {
        return InternalError;
      }
      SendMail(PasswordUpdateMail, users[id].email, mailDelivered);
      if !mailDelivered {
        return InternalError;
      }
      return Ok(Done("Password updated successfully"));
    }

    /**
     * invite_member: a member row for the user with that email, in the
     * given organization with the given role and status 1. Neither an
     * existing membership nor the organization and role are looked at;
     * only a backend that enforces foreign keys refuses a dangling one.
     * After the commit an invitation mail is sent.
     */
    method Invite(req: InviteRequest, failure: bool, mailDelivered: bool) returns (r: Response)
      requires Valid()
      modifies this
      ensures Valid()
      ensures users == old(users) && orgs == old(orgs) && roles == old(roles)
      ensures nextUserId == old(nextUserId) && nextOrgId == old(nextOrgId) && nextRoleId == old(nextRoleId)
      ensures !old(EmailTaken(users, req.userEmail)) ==>
        r == InternalError && members == old(members) && nextMemberId == old(nextMemberId) && outbox == old(outbox)
      ensures old(EmailTaken(users, req.userEmail)) ==>
        var member := InvitedMember(req.orgId, old(UserWithEmail(users, req.userEmail)), req.roleId);
        var committed := !failure && (!enforcesConstraints || (req.orgId in orgs && req.roleId in roles));
        && members == (if committed then old(members)[old(nextMemberId) := member] else old(members))
        && nextMemberId == (if committed then old(nextMemberId) + 1 else old(nextMemberId))
        && outbox == (if committed then old(outbox) + [MailEvent(InviteMail, req.userEmail, mailDelivered)]
                      else old(outbox))
        && r == (if committed && mailDelivered then Ok(Done("Member invited successfully")) else InternalError)
    {
      var found := FindUser(req.userEmail);
      if found.None? {
        return InternalError;
      }
      var ok := AddMember(InvitedMember(req.orgId, found.value, req.roleId), failure);
      if !ok {
        return InternalError;
      }
      SendMail(InviteMail, req.userEmail, mailDelivered);
      if !mailDelivered {
        return InternalError;
      }
      return Ok(Done("Member invited successfully"));
    }

    /** delete_member: removes the member row with that id; an unknown id gives 500, not 404. */
    method DeleteMember(memberId: int, failure: bool) returns (r: Response)
      requires Valid()
      modifies this
      ensures Valid()
      ensures users == old(users) && orgs == old(orgs) && roles == old(roles) && outbox == old(outbox)
      ensures nextUserId == old(nextUserId) && nextOrgId == old(nextOrgId)
      ensures nextRoleId == old(nextRoleId) && nextMemberId == old(nextMemberId)
      ensures var committed := memberId in old(members) && !failure;
        && members == (if committed then old(members) - {memberId} else old(members))
        && r == (if committed then Ok(Done("Member deleted successfully")) else InternalError)
    {
      if memberId !in members {
        return InternalError;
      }
      AdmitsRemoveMember(enforcesConstraints, Snapshot(), memberId);
      var ok := Commit(Snapshot().(members := members - {memberId}), failure);
      if !ok {
        return InternalError;
      }
      return Ok(Done("Member deleted successfully"));
    }

    /**
     * update_member_role: the member row with that id gets the new role
     * id and keeps every other column (updated_at included). The role is
     * not looked up; only a backend that enforces foreign keys refuses a
     * dangling one.
     */
    method UpdateRole(memberId: int, newRoleId: int, failure: bool) returns (r: Response)
      requires Valid()
      modifies this
      ensures Valid()
      ensures users == old(users) && orgs == old(orgs) && roles == old(roles) && outbox == old(outbox)
      ensures nextUserId == old(nextUserId) && nextOrgId == old(nextOrgId)
      ensures nextRoleId == old(nextRoleId) && nextMemberId == old(nextMemberId)
      ensures var committed := memberId in old(members) && !failure && (!enforcesConstraints || newRoleId in roles);
        && members == (if committed then old(members)[memberId := old(members)[memberId].(roleId := newRoleId)]
                       else old(members))
        && r == (if committed then Ok(Done("Member role updated successfully")) else InternalError)
    {
      if memberId !in members {
        return InternalError;
      }
      AdmitsSetMemberRole(enforcesConstraints, Snapshot(), memberId, newRoleId);
      var ok := Commit(Snapshot().(members := members[memberId := members[memberId].(roleId := newRoleId)]), failure);
      if !ok {
        return InternalError;
      }
      return Ok(Done("Member role updated successfully"));
    }
  }
}
