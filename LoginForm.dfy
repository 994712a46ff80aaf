/**
 * The login form's field rules: the email pattern shared with registration, and a
 * password that only has to be present and eight characters long.
 */
module LoginForm {
  import opened Common
  import opened FormRules
  import RegisterForm

  datatype Credentials = Credentials(emailId: string, password: string)

  /** `required` and `minLength: 8`, with no rule on what the characters are. */
  function LoginPasswordError(s: string): (r: Option<string>)
    ensures r.None? <==> |s| >= MinPasswordLength
    ensures s == "" ==> r == Some(PasswordRequired)
  {
    PasswordLengthError(s)
  }

  predicate IsValidLogin(c: Credentials) {
    EmailError(c.emailId).None? && LoginPasswordError(c.password).None?
  }

  /** A login the form lets through has a non-empty email. */
  lemma ValidLoginHasEmail(c: Credentials)
    requires IsValidLogin(c)
    ensures c.emailId != ""
  {
    assert EmailError(c.emailId) != Some(EmailRequired);
  }

  /** Every password registration accepts is accepted at login; the converse fails. */
  lemma RegisteredPasswordPassesLogin(s: string)
    ensures RegisterForm.PasswordError(s).None? ==> LoginPasswordError(s).None?
    ensures LoginPasswordError("password").None? && RegisterForm.PasswordError("password").Some?
  {
    RegisterForm.StrongPasswordExample();
  }
}
