/**
 * The request bodies of models/user_models.py and how a JSON body becomes
 * one: required fields must be present with the declared type, optional
 * fields take their declared default when absent, and fields that are not
 * declared are ignored.
 */
module Requests {
  import opened Wrappers
  import opened Schema

  /** A top-level value of a JSON request body. */
  datatype FieldValue = FNull | FBool(b: bool) | FInt(i: int) | FStr(s: string) | FObject(o: JsonObject)

  type Body = map<string, FieldValue>

  datatype SignInRequest = SignInRequest(email: string, password: string)

  datatype SignUpRequest = SignUpRequest(
    email: string,
    password: string,
    organizationName: string,
    organizationSettings: Option<JsonObject>,
    personal: Option<bool>,
    profile: Option<JsonObject>,
    userSettings: Option<JsonObject>)

  datatype ResetPasswordRequest = ResetPasswordRequest(email: string, newPassword: string)

  datatype InviteRequest = InviteRequest(orgId: int, userEmail: string, roleId: int)

  /** A required `str` field. */
  predicate IsStr(body: Body, name: string) {
    name in body && body[name].FStr?
  }

  /** A required `int` field. */
  predicate IsInt(body: Body, name: string) {
    name in body && body[name].FInt?
  }

  /** An `Optional[dict] = None` field: absent, null or an object. */
  predicate OptionalObjectOk(body: Body, name: string) {
    name !in body || body[name].FNull? || body[name].FObject?
  }

  /** An `Optional[bool]` field: absent, null or a boolean. */
  predicate OptionalBoolOk(body: Body, name: string) {
    name !in body || body[name].FNull? || body[name].FBool?
  }

  function ObjectOrNone(body: Body, name: string): Option<JsonObject>
    requires OptionalObjectOk(body, name)
  {
    if name in body && body[name].FObject? then Some(body[name].o) else None
  }

  /** An absent field takes `default`; an explicit null stays null. */
  function BoolOrDefault(body: Body, name: string, default: bool): Option<bool>
    requires OptionalBoolOk(body, name)
  {
    if name !in body then Some(default) else if body[name].FBool? then Some(body[name].b) else None
  }

  /**
   * pydantic's `EmailStr`: the normalized address (surrounding blanks
   * stripped, the domain lower-cased, a `Name <addr>` form reduced to
   * `addr`), or None when the string is not an email address. The rules
   * belong to a foreign library and are left uninterpreted.
   */
  type EmailValidator = string -> Option<string>

  /** A required `EmailStr` field: a string the validator accepts. */
  predicate IsEmail(validate: EmailValidator, body: Body, name: string) {
    IsStr(body, name) && validate(body[name].s).Some?
  }

  /** The normalized address of an `EmailStr` field. */
  function EmailOf(validate: EmailValidator, body: Body, name: string): string
    requires IsEmail(validate, body, name)
  {
    validate(body[name].s).value
  }

  function ParseSignIn(validate: EmailValidator, body: Body): (r: Option<SignInRequest>)
    ensures r.Some? <==> IsStr(body, "email") && validate(body["email"].s).Some? && IsStr(body, "password")
    ensures r.Some? ==> r.value.email == validate(body["email"].s).value && r.value.password == body["password"].s
  {
    if IsEmail(validate, body, "email") && IsStr(body, "password")
    then Some(SignInRequest(EmailOf(validate, body, "email"), body["password"].s))
    else None
  }

  function ParseSignUp(validate: EmailValidator, body: Body): (r: Option<SignUpRequest>)
    ensures r.Some? <==>
      && IsStr(body, "email") && validate(body["email"].s).Some?
      && IsStr(body, "password") && IsStr(body, "organization_name")
      && OptionalObjectOk(body, "organization_settings") && OptionalBoolOk(body, "personal")
      && OptionalObjectOk(body, "profile") && OptionalObjectOk(body, "user_settings")
    ensures r.Some? ==>
      && r.value.email == validate(body["email"].s).value
      && r.value.password == body["password"].s
      && r.value.organizationName == body["organization_name"].s
    // the declared defaults
    ensures r.Some? && "personal" !in body ==> r.value.personal == Some(false)
    ensures r.Some? && "personal" in body && body["personal"].FNull? ==> r.value.personal == None
    ensures r.Some? && "organization_settings" !in body ==> r.value.organizationSettings == None
    ensures r.Some? && "profile" !in body ==> r.value.profile == None
    ensures r.Some? && "user_settings" !in body ==> r.value.userSettings == None
    // what each optional field becomes when it is given
    ensures r.Some? ==>
      r.value.personal == (if "personal" !in body then Some(false)
                           else if body["personal"].FBool? then Some(body["personal"].b) else None)
    ensures r.Some? ==>
      r.value.organizationSettings == (if "organization_settings" in body && body["organization_settings"].FObject?
                                       then Some(body["organization_settings"].o) else None)
    ensures r.Some? ==>
      r.value.profile == (if "profile" in body && body["profile"].FObject?
                          then Some(body["profile"].o) else None)
    ensures r.Some? ==>
      r.value.userSettings == (if "user_settings" in body && body["user_settings"].FObject?
                               then Some(body["user_settings"].o) else None)
  {
    if && IsEmail(validate, body, "email") && IsStr(body, "password") && IsStr(body, "organization_name")
       && OptionalObjectOk(body, "organization_settings") && OptionalBoolOk(body, "personal")
       && OptionalObjectOk(body, "profile") && OptionalObjectOk(body, "user_settings")
    then Some(SignUpRequest(
      EmailOf(validate, body, "email"), body["password"].s, body["organization_name"].s,
      ObjectOrNone(body, "organization_settings"),
      BoolOrDefault(body, "personal", false),
      ObjectOrNone(body, "profile"),
      ObjectOrNone(body, "user_settings")))
    else None
  }

  function ParseResetPassword(validate: EmailValidator, body: Body): (r: Option<ResetPasswordRequest>)
    ensures r.Some? <==> IsStr(body, "email") && validate(body["email"].s).Some? && IsStr(body, "new_password")
    ensures r.Some? ==> r.value.email == validate(body["email"].s).value && r.value.newPassword == body["new_password"].s
  {
    if IsEmail(validate, body, "email") && IsStr(body, "new_password")
    then Some(ResetPasswordRequest(EmailOf(validate, body, "email"), body["new_password"].s))
    else None
  }

  function ParseInvite(validate: EmailValidator, body: Body): (r: Option<InviteRequest>)
    ensures r.Some? <==>
      IsInt(body, "org_id") && IsStr(body, "user_email") && validate(body["user_email"].s).Some? && IsInt(body, "role_id")
    ensures r.Some? ==>
      r.value == InviteRequest(body["org_id"].i, validate(body["user_email"].s).value, body["role_id"].i)
  {
    if IsInt(body, "org_id") && IsEmail(validate, body, "user_email") && IsInt(body, "role_id")
    then Some(InviteRequest(body["org_id"].i, EmailOf(validate, body, "user_email"), body["role_id"].i))
    else None
  }

  // The JSON a client sends for a request; parsing it gives the request
  // back whenever its address is already in normalized form.

  /** A validator that maps an address to itself. */
  predicate Normalized(validate: EmailValidator, email: string) {
    validate(email) == Some(email)
  }

  /** Normalizing twice is normalizing once. */
  ghost predicate Idempotent(validate: EmailValidator) {
    forall s :: validate(s).Some? ==> Normalized(validate, validate(s).value)
  }

  function SignInBody(req: SignInRequest): Body {
    map["email" := FStr(req.email), "password" := FStr(req.password)]
  }

  function ResetPasswordBody(req: ResetPasswordRequest): Body {
    map["email" := FStr(req.email), "new_password" := FStr(req.newPassword)]
  }

  function InviteBody(req: InviteRequest): Body {
    map["org_id" := FInt(req.orgId), "user_email" := FStr(req.userEmail), "role_id" := FInt(req.roleId)]
  }

  function ObjectField(o: Option<JsonObject>): FieldValue {
    match o
    case None => FNull
    case Some(x) => FObject(x)
  }

  function BoolField(b: Option<bool>): FieldValue {
    match b
    case None => FNull
    case Some(x) => FBool(x)
  }

  function SignUpBody(req: SignUpRequest): Body {
    map[
      "email" := FStr(req.email),
      "password" := FStr(req.password),
      "organization_name" := FStr(req.organizationName),
      "organization_settings" := ObjectField(req.organizationSettings),
      "personal" := BoolField(req.personal),
      "profile" := ObjectField(req.profile),
      "user_settings" := ObjectField(req.userSettings)]
  }

  lemma SignInRoundTrip(validate: EmailValidator, req: SignInRequest)
    requires Normalized(validate, req.email)
    ensures ParseSignIn(validate, SignInBody(req)) == Some(req)
  {
  }

  lemma SignUpRoundTrip(validate: EmailValidator, req: SignUpRequest)
    requires Normalized(validate, req.email)
    ensures ParseSignUp(validate, SignUpBody(req)) == Some(req)
  {
  }

  lemma ResetPasswordRoundTrip(validate: EmailValidator, req: ResetPasswordRequest)
    requires Normalized(validate, req.email)
    ensures ParseResetPassword(validate, ResetPasswordBody(req)) == Some(req)
  {
  }

  lemma InviteRoundTrip(validate: EmailValidator, req: InviteRequest)
    requires Normalized(validate, req.userEmail)
    ensures ParseInvite(validate, InviteBody(req)) == Some(req)
  {
  }

  /**
   * The other direction: with an idempotent normalization, the body of a
   * parsed request parses back to the same request, so the stored address
   * is already the one a later request normalizes to.
   */
  lemma SignInReparse(validate: EmailValidator, body: Body)
    requires Idempotent(validate) && ParseSignIn(validate, body).Some?
    ensures ParseSignIn(validate, SignInBody(ParseSignIn(validate, body).value)) == ParseSignIn(validate, body)
  {
    var req := ParseSignIn(validate, body).value;
    assert Normalized(validate, validate(body["email"].s).value);
    SignInRoundTrip(validate, req);
  }

  lemma SignUpReparse(validate: EmailValidator, body: Body)
    requires Idempotent(validate) && ParseSignUp(validate, body).Some?
    ensures ParseSignUp(validate, SignUpBody(ParseSignUp(validate, body).value)) == ParseSignUp(validate, body)
  {
    var req := ParseSignUp(validate, body).value;
    assert Normalized(validate, validate(body["email"].s).value);
    SignUpRoundTrip(validate, req);
  }

  /** Two spellings of one address sign in as the same request. */
  lemma SignInNormalizesEmail(validate: EmailValidator, a: string, b: string, password: string)
    requires validate(a).Some? && validate(a) == validate(b)
    ensures ParseSignIn(validate, map["email" := FStr(a), "password" := FStr(password)])
         == ParseSignIn(validate, map["email" := FStr(b), "password" := FStr(password)])
  {
  }

  /** A field the model does not declare is ignored. */
  lemma SignUpIgnoresExtraFields(validate: EmailValidator, body: Body, name: string, v: FieldValue)
    requires name !in {"email", "password", "organization_name", "organization_settings",
                       "personal", "profile", "user_settings"}
    ensures ParseSignUp(validate, body[name := v]) == ParseSignUp(validate, body)
  {
  }

  /** A body with only the three required fields gets every declared default. */
  lemma SignUpDefaults(validate: EmailValidator, email: string, password: string, orgName: string)
    requires validate(email).Some?
    ensures ParseSignUp(validate, map["email" := FStr(email), "password" := FStr(password),
                                      "organization_name" := FStr(orgName)])
            == Some(SignUpRequest(validate(email).value, password, orgName, None, Some(false), None, None))
  {
  }

  /** A given personal flag is carried, whatever the other optional fields do. */
  lemma SignUpCarriesPersonal(validate: EmailValidator, email: string, password: string, orgName: string, b: bool)
    requires validate(email).Some?
    ensures ParseSignUp(validate, map["email" := FStr(email), "password" := FStr(password),
                                      "organization_name" := FStr(orgName), "personal" := FBool(b)])
            == Some(SignUpRequest(validate(email).value, password, orgName, None, Some(b), None, None))
  {
  }
}
