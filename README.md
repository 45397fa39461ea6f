# Auth-Service membership model

A Dafny model of the core of a small FastAPI + SQLAlchemy authentication
and membership service. Users sign up, which creates an organization, a
user, an "Owner" role and a member row linking the three. They sign in and
get a JWT access token and a JWT refresh token. They reset their password,
invite existing users into an organization with a role, delete a member and
change a member's role. Three read-only reports count member rows grouped by
role name, by organization name, and by the pair of the two.

Files:

- `wrappers.dfy`: `Option` and `Result`.
- `schema.dfy` (module `Schema`): the four tables.
  - Row types and their column defaults.
  - The database snapshot `Db`.
  - The integrity rules: unique email, required foreign keys, String(255) widths.
  - What one commit of each kind of change is accepted under.
  - The declared ON DELETE CASCADE rules.
- `requests.dfy` (module `Requests`): the four request bodies, and how a JSON body becomes one with its declared defaults and its email normalized.
- `security.dfy` (module `Security`): the token claims of `core/security.py`:
  - the `exp` truthiness rule;
  - the secret-key fallback;
  - signing, as a foreign function whose error is passed on.
- `validation.dfy` (module `Validation`): the request-validation error handler of `app.py`, which renders an error location into a 400 response, or raises when the location is too short.
- `stats.dfy` (module `Stats`): the three reports as grouped counts over a snapshot, with their summation laws.
- `store.dfy` (module `Membership`): the `Store` class, holding the tables, the next-id counters and the mail outbox. Its six handler methods follow `routers/user_routers.py` commit by commit.
- `scenarios.dfy` (module `Scenarios`): sequences of handler calls.

How the model treats the outside world:

- Password hashing, password verification and JWT encoding are foreign libraries. They are the uninterpreted functions `hash`, `verify` and `sign` of a `Crypto` value fixed when a `Store` is built. Nothing about them is assumed in the handlers. The one sign-up-then-sign-in scenario assumes three things of its inputs: that `verify(p, hash(p))` holds, that signing never fails, and, on a backend that enforces column widths, that the new organization and user fit (which includes `|hash(p)| <= 255`).
- The clock is the `now` parameter.
- The process environment is the `env` map given to the `Store` constructor, which reads the signing key from it through `SecretKey`.
- pydantic's `EmailStr` check and normalization is an uninterpreted `EmailValidator` passed to the request parsers: it returns the normalized address, or None for a string that is not an address.
- Sending a mail appends a `MailEvent` to `Store.outbox`. A `delivered` parameter says whether the send succeeded.
- A database error whose cause lies outside the model (a lost connection, say) is a `failure` parameter. For sign-up it is the `Step` at which the error happens.
- Whether the backend enforces foreign keys and column widths is the store's `enforcesConstraints` flag. These declarations are enforced or not depending on the database behind `DATABASE_URL`. The unique index on `user.email` is always enforced.

Where the code and its documentation disagree, the model follows the code:

- The handlers' docstrings and their `HTTPException(400/404)` raises promise specific client errors: "User already exists", "Invalid credentials", "User not found" and "Member not found". Each of those raises happens inside a `try` whose last clause is `except Exception`, and that clause turns it into 500 "Internal server error". So every handler failure in the model is `InternalError`.
- Sign-up does not undo its earlier writes when a later step fails. It commits four times, and `db.rollback()` only discards the step that was still pending. The model keeps the organization, user and role rows that were committed before the failing step.
- A failed mail send after a successful commit gives 500, and the committed rows stay.

## Model

| member | source | states |
|---|---|---|
| Schema.NewOrganization | schemas/organization.py:4-13 | an inserted organization takes status 0, personal False and settings {} when those columns are not given; personal given as null also takes False, so it is never null; timestamps stay null unless given |
| Schema.NewUser | schemas/user.py:4-14 | an inserted user takes profile {}, status 0 and settings {} when not given |
| Schema.NewRole | schemas/role.py:4-10 | an inserted role has no description unless one is given, and belongs to the given organization |
| Schema.NewMember | schemas/member.py:5-15 | an inserted member takes status 0 and settings {} when not given; timestamps stay null |
| Schema.AdmitsInsertOrganization | schemas/organization.py:7-8 | on an accepted state, inserting an organization under a fresh id is accepted iff constraints are not enforced or its name fits in 255 characters |
| Schema.AdmitsInsertUser | schemas/user.py:7-9 | on an accepted state, inserting a user with a fresh id and an email no user holds is accepted iff constraints are not enforced or email and password fit in 255 characters |
| Schema.AdmitsInsertRole | schemas/role.py:7-10 | on an accepted state, inserting a role is accepted iff constraints are not enforced, or its organization exists and its columns fit |
| Schema.AdmitsInsertMember | schemas/member.py:8-11 | on an accepted state, inserting a member is accepted iff constraints are not enforced or its organization, user and role all exist |
| Schema.AdmitsRemoveMember | schemas/member.py:8-11 | removing a member row always keeps an accepted state accepted, since nothing points at members |
| Schema.AdmitsSetPassword | schemas/user.py:8-9 | overwriting one user's password keeps emails unique, and is accepted iff constraints are not enforced or the new value fits in 255 characters |
| Schema.AdmitsSetMemberRole | schemas/member.py:11 | changing one member's role id is accepted iff constraints are not enforced or the new role exists |
| Schema.DeleteOrganization | schemas/role.py:10 | deleting an organization removes exactly its roles, the members pointing at it, and the members pointing at one of its roles; all other rows are untouched and referential integrity is preserved |
| Schema.DeleteUser | schemas/member.py:10 | deleting a user removes exactly the members pointing at it, preserving referential integrity and unique emails |
| Schema.DeleteRole | schemas/member.py:11 | deleting a role removes exactly the members pointing at it, preserving referential integrity |
| Schema.DeleteOrganizationLeavesNoDependents | schemas/member.py:9 | after the cascade no role or member refers to the deleted organization |
| Schema.ColumnValue | schemas/organization.py:9 | a column not given takes its `default=`, a given one its value; a JSON column given None stores JSON null |
| Schema.NullableColumnValue | schemas/organization.py:10 | a nullable non-JSON column given null takes its default, like one not given |
| Schema.EmailTaken | routers/user_routers.py:62-63 | some user row holds the email |
| Schema.EmailsUnique | schemas/user.py:8 | the unique index on user.email: no two user rows hold one email |
| Schema.MemberRefsValid | schemas/member.py:9-11 | a member's org_id, user_id and role_id point at existing rows |
| Schema.ReferencesValid | schemas/member.py:9-11 | every member's foreign keys, and every role's org_id, point at existing rows |
| Schema.OrganizationFits | schemas/organization.py:8 | the organization name fits String(255) |
| Schema.UserFits | schemas/user.py:8-9 | email and password fit String(255) |
| Schema.RoleFits | schemas/role.py:8-9 | name and description fit String(255) |
| Schema.ColumnsFit | schemas/role.py:8-9 | every String(255) column of every row fits |
| Schema.Admits | schemas/user.py:8 | what a commit accepts: unique emails always, foreign keys and widths where the backend enforces them |
| Requests.ParseSignIn | models/user_models.py:4-6 | a body is accepted iff email is a string the EmailStr validator accepts and password is a string; the request carries the normalized email and the password |
| Requests.ParseSignUp | models/user_models.py:8-15 | accepted iff email is a string the validator accepts, password and organization_name are strings, and each optional field is absent, null or of its type; the email is the normalized one; personal is Some(false) when absent, None when null and Some(b) when given b; each dict field is the given object, or None when absent or null |
| Requests.ParseResetPassword | models/user_models.py:18-20 | accepted iff email is a string the validator accepts and new_password is a string; the request carries the normalized email and the new password |
| Requests.ParseInvite | models/user_models.py:22-25 | accepted iff org_id and role_id are ints and user_email is a string the validator accepts; the request carries the ids and the normalized email |
| Requests.SignUpRoundTrip | models/user_models.py:8-15 | the JSON body of any sign-up request whose email is already normalized parses back to that request |
| Requests.SignUpDefaults | models/user_models.py:12-15 | a body with only the required fields gets personal False and no settings or profile |
| Requests.SignUpCarriesPersonal | models/user_models.py:13 | a body giving personal b and no dict fields parses to personal Some(b) |
| Requests.InviteRoundTrip | models/user_models.py:22-25 | the JSON body of any invite request whose email is already normalized parses back to that request |
| Requests.SignInRoundTrip | models/user_models.py:4-6 | the JSON body of any sign-in request whose email is already normalized parses back to that request |
| Requests.ResetPasswordRoundTrip | models/user_models.py:18-20 | the JSON body of any reset request whose email is already normalized parses back to that request |
| Requests.SignInReparse | models/user_models.py:4-6 | with an idempotent normalization, the body rebuilt from a parsed sign-in request parses to the same request |
| Requests.SignUpReparse | models/user_models.py:8-15 | with an idempotent normalization, the body rebuilt from a parsed sign-up request parses to the same request |
| Requests.SignInNormalizesEmail | models/user_models.py:5 | two spellings the validator normalizes alike give the same sign-in request |
| Requests.SignUpIgnoresExtraFields | models/user_models.py:8-15 | a field SignUp does not declare never changes the parse |
| Requests.ObjectOrNone | models/user_models.py:12 | an Optional[dict] = None field: the object when one is given, None when absent or null |
| Requests.BoolOrDefault | models/user_models.py:13 | the Optional[bool] = False field: the default when absent, None when null, the value otherwise |
| Security.SecretKey | core/security.py:10 | the key is SECRET_KEY from the environment when set, else "secret_key" |
| Security.SecretKeyReadsOneVariable | core/security.py:10 | no variable other than SECRET_KEY changes the key, and a set SECRET_KEY, even an empty one, is used as is |
| Security.Truthy | core/security.py:32 | the truthiness of expires_in: false for None and 0, true otherwise |
| Security.SubjectClaims | routers/user_routers.py:36-37 | the claims {"sub": email} both sign-in tokens start from |
| Security.TokenClaims | core/security.py:29-34 | the claims hold every key of data, plus exp exactly when expires_in is truthy; exp is now + expires_in; every other value of data is kept |
| Security.CreateAccessToken | core/security.py:15-41 | succeeds iff the HS256 signer under the secret key signs the claims, returning its token; a signing error is passed on unchanged |
| Security.SignInClaims | routers/user_routers.py:36-37 | the access token's claims are exactly {"sub": email}; the refresh token's are {"sub": email, "exp": now + 604800} |
| Security.ZeroLifetimeAddsNoExpiry | core/security.py:32 | expires_in of 0 or None leaves the claims equal to data, so an exp already there is kept |
| Security.TruthyLifetimeOverwritesExpiry | core/security.py:33-34 | a non-zero expires_in replaces an exp already in data, without adding a key |
| Validation.NatToString | app.py:81 | str of a natural number: decimal digits only, with no leading zero except for 0 itself |
| Validation.IntToString | app.py:81 | str of an int is never empty, starts with "-" exactly for a negative number, and never reads "-0" or has a zero after the sign |
| Validation.ParseNatToString | app.py:81 | reading back the decimal rendering of a natural number gives the number |
| Validation.IntToStringRoundTrip | app.py:81 | the rendering of any int reads back as that int, so an index component is rendered without loss |
| Validation.RenderAll | app.py:81 | str is applied to every location component, in order |
| Validation.RenderAllAppend | app.py:81 | rendering distributes over concatenation of locations |
| Validation.JoinAppend | app.py:81 | joining two non-empty lists is joining each with one separator between |
| Validation.JoinLength | app.py:81 | a join is as long as its parts plus one separator per gap |
| Validation.Render | app.py:81 | str of one location component: a field name as is, an index in decimal |
| Validation.Join | app.py:81 | str.join: the parts in order with the separator between each pair |
| Validation.InvalidFieldsMessage | app.py:81 | the message starts with "Invalid , "; a two-component location gives that prefix and the second component rendered |
| Validation.ValidationErrorResponse | app.py:63-85 | the handler raises IndexError (a bare 500) iff there is no error or the first location has fewer than two components; otherwise status 400 and code SCR400, an int second component gives "Empty Payload" with no reason, and a field name gives the invalid-fields message with the first error's msg as reason |
| Validation.OnlyFirstErrorMatters | app.py:63-64 | errors after the first never change the response, whether it is a 400 or a raise |
| Validation.MissingBodyRaises | app.py:64-65 | a first error at ("body",), as for a request without a body, makes the handler raise IndexError rather than answer 400 |
| Validation.SingleFieldMessage | app.py:81-82 | the location ("body", name) gives the message "Invalid , " + name |
| Validation.MessageExtends | app.py:81 | the message for a longer location extends the shorter one's by " ," and the rendered extra components |
| Stats.SumOverRemove | routers/stats_routers.py:29 | proof helper: a sum of counts does not depend on the order the keys are taken in |
| Stats.GroupCount | routers/stats_routers.py:29 | proof helper for the GROUP BY: one entry per key some id has, holding the number of ids with that key |
| Stats.ImageIsNonEmptyClasses | routers/stats_routers.py:29 | proof helper: a key is in the image of the ids iff some id has it |
| Stats.GroupCountSumOver | routers/stats_routers.py:29 | proof helper: summing the groups at some keys counts the ids whose key is among them |
| Stats.GroupCountTotal | routers/stats_routers.py:29 | proof helper: all groups together count every id exactly once |
| Stats.GroupCountProject | routers/stats_routers.py:89-94 | proof helper: summing the fine groups that project to l counts the ids whose key projects to l |
| Stats.GroupCountRefines | routers/stats_routers.py:89-94 | proof helper: when the fine key projects onto the coarse key, summing the fine groups of l gives the coarse count of l |
| Stats.KeysProjectingTo | routers/stats_routers.py:89-94 | proof helper: the keys projecting to l are keys of the grouping |
| Stats.RoleJoin | routers/stats_routers.py:29 | the member rows the inner join with role keeps: those whose role exists |
| Stats.OrgJoin | routers/stats_routers.py:59 | the member rows the inner join with organization keeps |
| Stats.OrgRoleJoin | routers/stats_routers.py:89-92 | the member rows both inner joins keep |
| Stats.OrgRoleJoinIsBoth | routers/stats_routers.py:89-92 | the three-way join keeps exactly the rows both two-way joins keep |
| Stats.RoleWise | routers/stats_routers.py:13-34 | one entry per role name some member row joins; its count is the number of member rows whose role has that name, across organizations |
| Stats.RoleClasses | routers/stats_routers.py:29 | the rows grouped under a role name are exactly the member rows joining a role of that name |
| Stats.OrgWise | routers/stats_routers.py:43-64 | one entry per organization name some member row joins; its count is the number of member rows whose organization has that name |
| Stats.OrgClasses | routers/stats_routers.py:59 | the rows grouped under an organization name are exactly the member rows joining an organization of that name |
| Stats.OrgRoleWise | routers/stats_routers.py:73-106 | one entry per (organization name, role name) reached through the member's own org_id and role_id; its count is the number of such member rows |
| Stats.OrgRoleClasses | routers/stats_routers.py:89-93 | the rows grouped under a name pair are exactly the member rows joining both |
| Stats.RoleWiseTotal | routers/stats_routers.py:29 | the role-wise counts add up to the member rows whose role exists |
| Stats.OrgWiseTotal | routers/stats_routers.py:59 | the org-wise counts add up to the member rows whose organization exists |
| Stats.JoinsKeepEveryMember | routers/stats_routers.py:29-94 | with every foreign key in place, none of the three inner joins drops a member row |
| Stats.TotalsAgree | routers/stats_routers.py:29-59 | with every foreign key in place, the role-wise and org-wise counts both add up to the number of member rows |
| Stats.OrgRoleRefinesOrgWise | routers/stats_routers.py:59-94 | with every foreign key in place, the org-role counts of one organization name add up to its org-wise count (0 when it has none) |
| Stats.TwoAcmes | schemas/organization.py:8 | a database holding two organizations with the same name, one user owning both, with every foreign key in place |
| Stats.SameOrgNamesMerge | routers/stats_routers.py:59 | two organizations named alike merge into one org-wise entry counting both rows |
| Stats.TwoAcmesOrgNames | routers/stats_routers.py:59 | the org-wise report of that database has the one name |
| Stats.TwoAcmesOrgCount | routers/stats_routers.py:59 | ... counting two rows |
| Stats.RowsNotUsersAreCounted | routers/stats_routers.py:29 | one user in two member rows is counted twice role-wise |
| Stats.TwoAcmesRoleNames | routers/stats_routers.py:29 | the role-wise report of that database has the one name |
| Stats.TwoAcmesRoleCount | routers/stats_routers.py:29 | ... counting two rows |
| Stats.SameOrgRoleNamesMerge | routers/stats_routers.py:89-94 | both rows fall under one (organization, role) name pair |
| Stats.TwoAcmesOrgRoleNames | routers/stats_routers.py:89-94 | the org-role report of that database has the one pair |
| Stats.TwoAcmesOrgRoleCount | routers/stats_routers.py:89-94 | ... counting two rows |
| Membership.OrEmpty | routers/user_routers.py:71 | `d or {}`: the given dict, or {} for None |
| Membership.SignUpOrganization | routers/user_routers.py:67-74 | status 0, the requested name, the requested personal flag with null replaced by the column default False, settings or {}, stamped now |
| Membership.SignUpUser | routers/user_routers.py:80-89 | the password is the hash of the given one; profile and settings or {}; status 0; stamped now |
| Membership.OwnerRole | routers/user_routers.py:95 | named "Owner", no description, in the new organization; always fits its columns |
| Membership.OwnerMember | routers/user_routers.py:100-108 | links the new organization, user and role with status 0 and settings {} |
| Membership.InvitedMember | routers/user_routers.py:182 | status 1, settings {} from the column default, null timestamps |
| Membership.SignUpCommits | routers/user_routers.py:75-110 | the commits go through in order up to the first that fails: the organization and the user on an injected failure or an over-long column, the role and the member only on an injected failure |
| Membership.UserWithEmail | routers/user_routers.py:31 | names a user row holding the email |
| Membership.UserWithEmailIsUnique | schemas/user.py:8 | with unique emails, that user is the only one |
| Membership.Store.constructor | core/database.py:11-13 | an empty, valid database whose ids start at 1, signing with SECRET_KEY from the given environment or "secret_key" |
| Membership.Store.Valid | core/database.py:11-13 | every id is below its counter, and the tables satisfy what the backend enforces |
| Membership.Store.Commit | routers/user_routers.py:116-117 | a commit applies the staged tables iff the backend accepts them and nothing fails; otherwise the rollback leaves the committed tables as they were |
| Membership.Store.SendMail | services/email.py:14-47 | one mail attempt appended to the outbox; no table changes |
| Membership.Store.AddOrganization | routers/user_routers.py:75-77 | the organization is committed under the next id iff nothing fails and it fits; keeps the store valid |
| Membership.Store.AddUser | routers/user_routers.py:90-92 | a user with a free email is committed under the next id iff nothing fails and it fits |
| Membership.Store.AddRole | routers/user_routers.py:96-97 | a role is committed under the next id iff nothing fails and, where enforced, its organization exists |
| Membership.Store.AddMember | routers/user_routers.py:109-110 | a member is committed under the next id iff nothing fails and, where enforced, its references exist |
| Membership.Store.FindUser | routers/user_routers.py:31 | finds a user iff one holds the email, and then the one holding it |
| Membership.Store.SignIn | routers/user_routers.py:17-43 | Ok iff a user holds the email, the password verifies against the stored hash and both tokens sign; the tokens are signed from {"sub": email} without and with a seven-day exp; every failure is the same 500; nothing is written |
| Membership.Store.CommitSignUpRows | routers/user_routers.py:66-110 | organization (personal never null), user, Owner role and member are committed in order, each under the next id, up to the first failing commit; the count that went through is SignUpCommits; no mail is sent |
| Membership.Store.SignUp | routers/user_routers.py:45-122 | a taken email gives 500 and changes nothing; otherwise organization (personal never null), user, Owner role and member are committed in order up to the first failing commit, each under the next id; the invite mail is attempted only after all four, and returns the user and organization ids only if it is delivered |
| Membership.Store.ResetPassword | routers/user_routers.py:124-159 | an unknown email gives 500 and changes nothing; otherwise only that user's password becomes hash(new) when the commit goes through, then the notification is attempted; other tables untouched |
| Membership.Store.Invite | routers/user_routers.py:161-197 | an unknown email gives 500 and changes nothing; otherwise exactly one member (org, user, role, status 1) is added when the commit goes through, with no check of org, role or an existing membership beyond the backend's foreign keys; then the invite mail is attempted |
| Membership.Store.DeleteMember | routers/user_routers.py:199-230 | removes exactly that member row when it exists and the commit goes through; otherwise 500 and no change |
| Membership.Store.UpdateRole | routers/user_routers.py:232-265 | only that member's role id changes (updated_at too stays) when it exists and the commit goes through; a missing member gives 500 |
| Scenarios.SignUpSignInSignUpAgain | routers/user_routers.py:31-64 | after a successful sign-up the same credentials sign in, and a second sign-up with the email fails |
| Scenarios.FailedSignIns | routers/user_routers.py:32-43 | a wrong password and an unknown email get the identical response |
| Scenarios.InviteTwice | routers/user_routers.py:177-184 | inviting the same user twice adds two identical member rows under distinct ids |

## Left out

- SMTP: the connection, TLS, login and message contents of services/email.py are not modelled. A send is a `MailEvent` with a given outcome.
- Session plumbing: the engine and session lifecycle of core/database.py are not modelled, nor is `db.refresh` after a commit, which the model treats as never failing.
- bcrypt and JWT: hashing, verification and encoding are uninterpreted. Nothing about them is proved. Only `Scenarios.SignUpSignInSignUpAgain` assumes anything: `verify(p, hash(p))`, that every signing call succeeds, and, on an enforcing backend, that the new rows fit their columns (so `|hash(p)| <= 255`). The claims are modelled; the token bytes are not.
- Membership.Store.SignUp: every timestamp of one request is the single value `now`. The source calls `datetime.utcnow()` once per column, and `utcnow().timestamp()` reads a naive UTC time as local time. `now` stands for whatever that expression yields.
- Membership.Store.SignUp: password hashing, the mail step and the org-role-member builders are taken not to raise anything except the modelled failures.
- Request validation: the rules of pydantic's EmailStr (which strings are addresses, and how one is normalized) are not modelled; `ParseSignIn`, `ParseSignUp`, `ParseResetPassword` and `ParseInvite` take them as an uninterpreted `EmailValidator`. Type coercion (such as "1" accepted for an int) and nested validation are not modelled either. A field is accepted only with its exact JSON type.
- Validation.ValidationErrorResponse: the IndexError it raises for a short location is the model's `Failure(IndexError)`. The plain-text 500 the framework then sends is not modelled.
- JSON: profile and settings blobs are opaque values. There is no JSON encoding.
- Email comparison: emails are compared as exact strings. A backend collation that compares case-insensitively is not modelled.
- Concurrency: interleaved requests, and the race between the existing-email check and the user insert, are not modelled. Each handler runs alone.
- The reports: their own 500 on a database error and the list-of-dicts encoding are not modelled. A report is a map from name to count, which also captures that the rows come in no particular order.
- Application setup: FastAPI routing, CORS, table creation and logging in app.py are not part of this model.
- Integer widths: ids and BigInteger timestamps are unbounded integers. Overflow of the database's integer columns is not modelled.
- Membership.Store.AddOrganization: the new id is the store's counter, which advances only when the insert commits and never reuses an id. The database behind `DATABASE_URL` really chooses ids: a PostgreSQL sequence also uses up an id on a refused insert, and SQLite hands out one more than the highest id in use, so it can reuse the id of a deleted last row.
- Membership.Store.AddUser: the same counter id policy for user ids.
- Membership.Store.AddRole: the same counter id policy for role ids.
- Membership.Store.AddMember: the same counter id policy for member ids.
- Membership.Store.CommitSignUpRows: the organization, user, role and member ids are the counters at the call, under the same policy. After an earlier refused insert, or after a delete on SQLite, the ids the database chooses may differ.
- Membership.Store.SignUp: the user and organization ids it returns are those counters, under the same policy.
- Membership.Store.Invite: the new member id is the member counter, under the same policy.
