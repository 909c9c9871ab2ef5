/**
 * The password check of `adminLogin`. The secret comes from the environment
 * variable ADMIN_SECRET_PASSWORD, absent when the variable is unset; signing the
 * token is not modelled, only whether one is issued.
 */
module AdminAccess {
  import opened Wrappers
  import opened JsValues

  datatype LoginResponse = TokenIssued | InvalidPassword
  {
    function HttpStatus(): int
    {
      if TokenIssued? then 200 else 401
    }
  }

  /** What `process.env.ADMIN_SECRET_PASSWORD` evaluates to. */
  function EnvValue(secret: Option<string>): JsValue
  {
    match secret
    case None => Undefined
    case Some(s) => Str(s)
  }

  /**
   * `adminLogin` as written: `password !== process.env.ADMIN_SECRET_PASSWORD` answers
   * 401. A token is issued for the configured password, and also when the variable
   * is unset and the body carries no password, since `undefined !== undefined` is false.
   */
  function AdminLoginAsWritten(password: JsValue, secret: Option<string>): (r: LoginResponse)
    ensures r.TokenIssued? <==>
              (secret.Some? && password == Str(secret.value)) || (secret.None? && password == Undefined)
  {
    if password != EnvValue(secret) then InvalidPassword else TokenIssued
  }

  /** An unset secret lets a request with an empty body in. */
  lemma UnsetSecretAdmitsEmptyBody()
    ensures AdminLoginAsWritten(Undefined, None) == TokenIssued
  {
  }

  /** The check as evidently intended: with no configured secret, nobody logs in. */
  function AdminLogin(password: JsValue, secret: Option<string>): (r: LoginResponse)
    ensures r.TokenIssued? <==> secret.Some? && password == Str(secret.value)
  {
    if secret.None? || password != Str(secret.value) then InvalidPassword else TokenIssued
  }

  /** The intended check differs from the written one only when the secret is unset. */
  lemma AdminLoginDiffersOnlyWhenUnset(password: JsValue, secret: Option<string>)
    ensures secret.Some? ==> AdminLogin(password, secret) == AdminLoginAsWritten(password, secret)
    ensures secret.None? ==> AdminLogin(password, secret) == InvalidPassword
  {
  }
}
