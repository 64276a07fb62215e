/** Request-body rules of the auth endpoints
    (backend/validations/authSchema.js). zod's email check is the parameter
    `isEmail`. */
module AuthSchema {

  import AuthService

  predicate RegisterOk(name: string, email: string, password: string, isEmail: string -> bool)
  {
    |name| >= 2 && isEmail(email) && |password| >= 6
  }

  predicate LoginOk(email: string, password: string, isEmail: string -> bool)
  {
    isEmail(email) && |password| >= 1
  }

  predicate SendOtpOk(email: string, isEmail: string -> bool)
  {
    isEmail(email)
  }

  /** Exactly six characters; the check does not ask for digits. */
  predicate VerifyOtpOk(email: string, otp: string, isEmail: string -> bool)
  {
    isEmail(email) && |otp| == 6
  }

  /** Every OTP the service mails passes the verify rule, as does a
      six-letter string; an accepted registration password is also an
      accepted login password. */
  lemma SchemasAgreeWithService(random: real, email: string, name: string, password: string, isEmail: string -> bool)
    requires 0.0 <= random < 1.0 && isEmail(email)
    ensures VerifyOtpOk(email, AuthService.GenerateOtp(random), isEmail)
    ensures VerifyOtpOk(email, "abcdef", isEmail)
    ensures RegisterOk(name, email, password, isEmail) ==> LoginOk(email, password, isEmail) && SendOtpOk(email, isEmail)
  {
  }
}
