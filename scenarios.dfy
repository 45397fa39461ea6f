/**
 * Request sequences against one `Store`: what a client sees across
 * several handler calls.
 */
module Scenarios {
  import opened Wrappers
  import opened Schema
  import opened Security
  import opened Requests
  import opened Membership

  /**
   * Signing up and then signing in with the same password succeeds, given
   * that the hash verifies against its own password and that signing
   * never fails; signing up again with the same email then fails and
   * writes nothing.
   */
  method SignUpSignInSignUpAgain(store: Store, req: SignUpRequest, now: int)
    returns (first: Response, signIn: Response, again: Response)
    requires store.Valid() && !EmailTaken(store.users, req.email)
    requires !store.enforcesConstraints ||
      (OrganizationFits(SignUpOrganization(req, now)) && UserFits(SignUpUser(store.crypto.hash, req, now)))
    requires store.crypto.verify(req.password, store.crypto.hash(req.password))
    requires forall c: Claims :: store.crypto.sign(c, store.secretKey, Algorithm).Signed?
    modifies store
    ensures store.Valid()
    ensures first == Ok(SignedUp("User signed up successfully", old(store.nextUserId), old(store.nextOrgId)))
    ensures signIn.Ok?
    ensures again == InternalError
    ensures |store.outbox| == |old(store.outbox)| + 1
  {
    var userId := store.nextUserId;
    first := store.SignUp(req, now, None, true);
    assert store.users[userId].email == req.email;
    UserWithEmailIsUnique(store.users, req.email, userId);
    signIn := store.SignIn(SignInRequest(req.email, req.password), now);
    again := store.SignUp(req, now, None, true);
  }

  /** An unknown email and a wrong password get the very same answer. */
  method FailedSignIns(store: Store, known: SignInRequest, unknown: SignInRequest, now: int)
    returns (wrongPassword: Response, noSuchUser: Response)
    requires store.Valid()
    requires EmailTaken(store.users, known.email) && !EmailTaken(store.users, unknown.email)
    requires !store.crypto.verify(known.password, store.users[UserWithEmail(store.users, known.email)].password)
    ensures wrongPassword == noSuchUser == InternalError
  {
    wrongPassword := store.SignIn(known, now);
    noSuchUser := store.SignIn(unknown, now);
  }

  /**
   * Inviting the same user twice to the same organization and role adds
   * two member rows: nothing checks for an existing membership.
   */
  method InviteTwice(store: Store, req: InviteRequest)
    returns (first: Response, second: Response)
    requires store.Valid() && EmailTaken(store.users, req.userEmail)
    requires !store.enforcesConstraints || (req.orgId in store.orgs && req.roleId in store.roles)
    modifies store
    ensures store.Valid()
    ensures first == second == Ok(Done("Member invited successfully"))
    ensures var a, b := old(store.nextMemberId), old(store.nextMemberId) + 1;
      && a != b && a in store.members && b in store.members
      && store.members == old(store.members)[a := store.members[a]][b := store.members[b]]
      && store.members[a] == store.members[b]
      && store.members[a].userId == old(UserWithEmail(store.users, req.userEmail))
      && |store.members| == |old(store.members)| + 2
  {
    first := store.Invite(req, false, true);
    second := store.Invite(req, false, true);
  }
}
