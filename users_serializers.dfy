/**
 * The serializers of the `users` application (backend/src/users/serializers.py):
 * the login form with its ordered failure reasons, the password change
 * form, and the registration serializer's password field. Django's
 * `authenticate` and `check_password` are library code and enter as
 * function parameters; users are keyed by their unique custom id.
 */
module UsersSerializers {
  import opened Common
  import opened DrfFields

  /** What the login logic reads of a stored user. */
  datatype Account = Account(customId: string, isActive: bool)

  const MissingCredentials := "\"custom_id\" と \"password\" を含める必要があります。"
  const WrongPassword := "パスワードが正しくありません。"
  const InactiveAccount := "このアカウントは無効化されています。"
  const CannotLogIn := "提供された認証情報でログインできません。"
  const UnknownUser := "指定されたIDのユーザーは存在しません。"

  /** The outcome of `CustomAuthTokenSerializer.is_valid()`. */
  datatype LoginOutcome =
    | LoginFieldErrors(errors: seq<FieldError>)
    | LoginRefused(message: string)
    | LoggedIn(user: Account)

  /**
   * `CustomAuthTokenSerializer.validate` on the validated strings: the
   * emptiness test, then `authenticate`, then the reason for a refusal in
   * order unknown id, wrong password, inactive, anything else.
   */
  function LoginValidate(customId: string, password: string, accounts: map<string, Account>,
                         authenticate: (string, string) -> Option<Account>,
                         checkPassword: (Account, string) -> bool): (r: LoginOutcome)
    ensures r.LoggedIn? <==> customId != "" && password != "" && authenticate(customId, password).Some?
    ensures r.LoggedIn? ==> r.user == authenticate(customId, password).value
    ensures !r.LoginFieldErrors?
  {
    if !(customId != "" && password != "") then LoginRefused(MissingCredentials)
    else
      var user := authenticate(customId, password);
      if user.Some? then LoggedIn(user.value)
      else if customId !in accounts then LoginRefused(UnknownUser)
      else if !checkPassword(accounts[customId], password) then LoginRefused(WrongPassword)
      else if !accounts[customId].isActive then LoginRefused(InactiveAccount)
      else LoginRefused(CannotLogIn)
  }

  /** The whole form: both `CharField`s (the password untrimmed), then `validate` only without field errors. */
  function Login(customId: Input, password: Input, accounts: map<string, Account>,
                 authenticate: (string, string) -> Option<Account>,
                 checkPassword: (Account, string) -> bool): (r: LoginOutcome)
    ensures r.LoginFieldErrors? <==> !CharField(customId, true, true).Valid? || !CharField(password, true, false).Valid?
    ensures r.LoginFieldErrors? ==> r.errors == ErrorsOf("custom_id", CharField(customId, true, true)) + ErrorsOf("password", CharField(password, true, false))
    ensures !r.LoginFieldErrors? ==> r == LoginValidate(CharField(customId, true, true).value, CharField(password, true, false).value, accounts, authenticate, checkPassword)
  {
    var c := CharField(customId, true, true);
    var p := CharField(password, true, false);
    if c.Valid? && p.Valid? then LoginValidate(c.value, p.value, accounts, authenticate, checkPassword)
    else LoginFieldErrors(ErrorsOf("custom_id", c) + ErrorsOf("password", p))
  }

  /** A missing id or password is refused before `authenticate` is consulted: the answer is the same for any authenticator. */
  lemma MissingCredentialsBeforeAuthentication(customId: Input, password: Input, accounts: map<string, Account>,
                                               auth1: (string, string) -> Option<Account>, auth2: (string, string) -> Option<Account>,
                                               checkPassword: (Account, string) -> bool)
    requires customId.Absent? || customId == Text("") || password.Absent? || password == Text("")
    ensures Login(customId, password, accounts, auth1, checkPassword).LoginFieldErrors?
    ensures Login(customId, password, accounts, auth1, checkPassword) == Login(customId, password, accounts, auth2, checkPassword)
  {
  }

  /** The refusal reasons in their order, for a failed authentication. */
  lemma RefusalReasonOrder(customId: string, password: string, accounts: map<string, Account>,
                           authenticate: (string, string) -> Option<Account>,
                           checkPassword: (Account, string) -> bool)
    requires customId != "" && password != "" && authenticate(customId, password).None?
    ensures var r := LoginValidate(customId, password, accounts, authenticate, checkPassword);
      && (customId !in accounts ==> r == LoginRefused(UnknownUser))
      && (customId in accounts && !checkPassword(accounts[customId], password) ==> r == LoginRefused(WrongPassword))
      && (customId in accounts && checkPassword(accounts[customId], password) && !accounts[customId].isActive ==> r == LoginRefused(InactiveAccount))
      && (customId in accounts && checkPassword(accounts[customId], password) && accounts[customId].isActive ==> r == LoginRefused(CannotLogIn))
  {
  }

  /**
   * With Django's model backend (a user is returned exactly when the id is
   * known, the password checks and the account is active) the generic
   * refusal never occurs and a known, active user with the right password
   * logs in.
   */
  lemma ModelBackendLogin(customId: string, password: string, accounts: map<string, Account>,
                          authenticate: (string, string) -> Option<Account>,
                          checkPassword: (Account, string) -> bool)
    requires customId != "" && password != ""
    requires forall c, p :: (authenticate(c, p) ==
                              if c in accounts && checkPassword(accounts[c], p) && accounts[c].isActive then Some(accounts[c]) else None)
    ensures LoginValidate(customId, password, accounts, authenticate, checkPassword) != LoginRefused(CannotLogIn)
    ensures LoginValidate(customId, password, accounts, authenticate, checkPassword).LoggedIn?
      <==> customId in accounts && checkPassword(accounts[customId], password) && accounts[customId].isActive
  {
    assert authenticate(customId, password) ==
      (if customId in accounts && checkPassword(accounts[customId], password) && accounts[customId].isActive then Some(accounts[customId]) else None);
  }

  /** Because both fields are required and non-blank, the emptiness test inside `validate` can never fire. */
  lemma MissingCredentialsMessageUnreachable(customId: Input, password: Input, accounts: map<string, Account>,
                                             authenticate: (string, string) -> Option<Account>,
                                             checkPassword: (Account, string) -> bool)
    ensures Login(customId, password, accounts, authenticate, checkPassword) != LoginRefused(MissingCredentials)
  {
  }

  const OldPasswordIncorrect := "現在のパスワードが正しくありません。"
  const PasswordsDiffer := "2つのパスワードフィールドが一致しません。"

  /** `old_password`: the `CharField`, then `validate_old_password` against the request user. */
  function OldPasswordField(current: Input, checkPassword: string -> bool): (c: Checked)
    ensures c.Valid? <==> CharField(current, true, true).Valid? && checkPassword(CharField(current, true, true).value)
    ensures CharField(current, true, true).Valid? && !c.Valid? ==> c == Invalid(OldPasswordIncorrect)
  {
    var c := CharField(current, true, true);
    if c.Valid? && !checkPassword(c.value) then Invalid(OldPasswordIncorrect) else c
  }

  /** `PasswordChangeSerializer.is_valid()`: the field errors in field order, else the `validate` error, else none. */
  function PasswordChangeErrors(current: Input, new1: Input, new2: Input, checkPassword: string -> bool): (e: seq<FieldError>)
    ensures var o := OldPasswordField(current, checkPassword);
      var n1 := CharField(new1, true, true);
      var n2 := CharField(new2, true, true);
      && (!(o.Valid? && n1.Valid? && n2.Valid?) ==> e == ErrorsOf("old_password", o) + ErrorsOf("new_password1", n1) + ErrorsOf("new_password2", n2))
      && (o.Valid? && n1.Valid? && n2.Valid? ==> (e == [] <==> n1.value == n2.value))
      && (o.Valid? && n1.Valid? && n2.Valid? && n1.value != n2.value ==> e == [FieldError("new_password2", PasswordsDiffer)])
  {
    var o := OldPasswordField(current, checkPassword);
    var n1 := CharField(new1, true, true);
    var n2 := CharField(new2, true, true);
    if !(o.Valid? && n1.Valid? && n2.Valid?) then
      ErrorsOf("old_password", o) + ErrorsOf("new_password1", n1) + ErrorsOf("new_password2", n2)
    else if n1.value != n2.value then [FieldError("new_password2", PasswordsDiffer)]
    else []
  }

  /** A change is accepted exactly when the old password verifies and the two new ones agree after trimming. */
  lemma PasswordChangeAcceptedIff(current: string, new1: string, new2: string, checkPassword: string -> bool)
    requires !AllSpace(current) && !AllSpace(new1) && !AllSpace(new2)
    ensures PasswordChangeErrors(Text(current), Text(new1), Text(new2), checkPassword) == []
      <==> checkPassword(Strip(current)) && Strip(new1) == Strip(new2)
  {
    var o := OldPasswordField(Text(current), checkPassword);
    if !o.Valid? {
      assert OldPasswordField(Text(current), checkPassword) == Invalid(OldPasswordIncorrect);
    }
  }

  /** A wrong old password is reported on `old_password` and the mismatch test is not reached. */
  lemma WrongOldPasswordReported(current: string, new1: string, new2: string, checkPassword: string -> bool)
    requires !AllSpace(current) && !AllSpace(new1) && !AllSpace(new2) && !checkPassword(Strip(current))
    ensures PasswordChangeErrors(Text(current), Text(new1), Text(new2), checkPassword) == [FieldError("old_password", OldPasswordIncorrect)]
  {
  }

  const MinLengthMessage := "Ensure this field has at least 5 characters."

  const MaxLengthMessage := "Ensure this field has no more than 128 characters."

  /** The registration password: a required, trimmed `CharField` of 5 to 128 characters (the model column's `max_length`). */
  function RegistrationPassword(password: Input): (c: Checked)
    ensures c.Valid? <==> CharField(password, true, true).Valid? && 5 <= |CharField(password, true, true).value| <= 128
    ensures c.Valid? ==> c == CharField(password, true, true)
    ensures CharField(password, true, true).Valid? && |CharField(password, true, true).value| > 128 ==> c == Invalid(MaxLengthMessage)
    ensures CharField(password, true, true).Valid? && |CharField(password, true, true).value| < 5 ==> c == Invalid(MinLengthMessage)
  {
    var c := CharField(password, true, true);
    if c.Valid? && |c.value| > 128 then Invalid(MaxLengthMessage)
    else if c.Valid? && |c.value| < 5 then Invalid(MinLengthMessage)
    else c
  }

  /** The fields `CustomUserSerializer` outputs: `password` is write-only and never included. */
  function RegistrationOutput(customId: string, username: string, email: Option<string>): (out: map<string, Option<string>>)
    ensures out.Keys == {"custom_id", "username", "email"}
    ensures "password" !in out
    ensures out["custom_id"] == Some(customId) && out["email"] == email
  {
    map["custom_id" := Some(customId), "username" := Some(username), "email" := email]
  }
}
