/** The sign-up and password-reset request bodies
    (backend/app/schemas/auth.py): their defaults and the check that both
    password fields agree. */
module AuthSchemas {
  import opened Base

  /** A field of a request body the client may leave out. */
  datatype Provided<T> = Absent | Given(value: T)

  function WithDefault<T>(p: Provided<T>, default: T): (r: T)
    ensures p.Absent? ==> r == default
    ensures p.Given? ==> r == p.value
  {
    if p.Given? then p.value else default
  }

  /** The JSON body of a sign-up request. */
  datatype SignupBody = SignupBody(
    email: string,
    firstName: string,
    lastName: string,
    password: string,
    passwordConfirm: string,
    nativeLanguage: Provided<Option<string>>,
    targetLanguage: Provided<Option<string>>,
    proficiencyLevel: Provided<Option<string>>)

  /** A validated `SignupRequest`. */
  datatype SignupRequest = SignupRequest(
    email: string,
    firstName: string,
    lastName: string,
    password: string,
    passwordConfirm: string,
    nativeLanguage: Option<string>,
    targetLanguage: Option<string>,
    proficiencyLevel: Option<string>)

  datatype ResetPasswordRequest = ResetPasswordRequest(password: string, passwordConfirm: string)

  const SignupMismatch := "Passwords do not match!"
  const ResetMismatch := "Passwords do not match"

  /** The field defaults, then the `passwords_match` validator. */
  function ValidateSignup(body: SignupBody): (r: Result<SignupRequest, string>)
    ensures r.Err? <==> body.password != body.passwordConfirm
    ensures r.Err? ==> r.error == SignupMismatch
    ensures r.Ok? ==> r.value.email == body.email && r.value.password == body.password
    ensures r.Ok? && body.proficiencyLevel.Absent? ==> r.value.proficiencyLevel == Some("beginner")
  {
    var req := SignupRequest(body.email, body.firstName, body.lastName, body.password, body.passwordConfirm,
                             WithDefault(body.nativeLanguage, None), WithDefault(body.targetLanguage, None),
                             WithDefault(body.proficiencyLevel, Some("beginner")));
    if req.password != req.passwordConfirm then Err(SignupMismatch) else Ok(req)
  }

  /** The reset request's `passwords_match` validator. */
  function ValidateReset(req: ResetPasswordRequest): (r: Result<ResetPasswordRequest, string>)
    ensures r.Err? <==> req.password != req.passwordConfirm
    ensures r.Err? ==> r.error == ResetMismatch
    ensures r.Ok? ==> r.value == req
  {
    if req.password != req.passwordConfirm then Err(ResetMismatch) else Ok(req)
  }

  // ---------------------------------------------------------------------------
  // Properties

  /** A sign-up is rejected exactly when the passwords differ; otherwise the
      request carries the body's fields unchanged. */
  lemma SignupValidation(body: SignupBody)
    ensures ValidateSignup(body) == Err(SignupMismatch) <==> body.password != body.passwordConfirm
    ensures ValidateSignup(body).Ok? <==> body.password == body.passwordConfirm
    ensures ValidateSignup(body).Ok? ==>
      var r := ValidateSignup(body).value;
      && r.email == body.email && r.firstName == body.firstName && r.lastName == body.lastName
      && r.password == body.password && r.passwordConfirm == body.passwordConfirm
  {
  }

  /** Left-out fields take their defaults: "beginner" for the level and no
      languages; given fields, even an explicit null, are kept. */
  lemma SignupDefaults(body: SignupBody)
    requires body.password == body.passwordConfirm
    ensures var r := ValidateSignup(body).value;
      && (body.proficiencyLevel.Absent? ==> r.proficiencyLevel == Some("beginner"))
      && (body.nativeLanguage.Absent? ==> r.nativeLanguage.None?)
      && (body.targetLanguage.Absent? ==> r.targetLanguage.None?)
      && (body.proficiencyLevel.Given? ==> r.proficiencyLevel == body.proficiencyLevel.value)
      && (body.nativeLanguage.Given? ==> r.nativeLanguage == body.nativeLanguage.value)
      && (body.targetLanguage.Given? ==> r.targetLanguage == body.targetLanguage.value)
  {
  }

  /** A reset is rejected exactly when the passwords differ, and is otherwise
      the request itself. */
  lemma ResetValidation(req: ResetPasswordRequest)
    ensures ValidateReset(req) == Err(ResetMismatch) <==> req.password != req.passwordConfirm
    ensures ValidateReset(req) == Ok(req) <==> req.password == req.passwordConfirm
  {
  }
}
