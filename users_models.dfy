/**
 * The custom user of the `users` application (backend/src/users/models.py):
 * password expiry, the e-mail clean-up on save, the full name, and the
 * manager's create_user / create_superuser rules. The password hasher and
 * `normalize_email` are library code and enter as function parameters; the
 * clock is an integer number of seconds.
 */
module UsersModels {
  import opened Common

  /** `PASSWORD_EXPIRATION_DAYS` in the settings: absent, or present with a value that may be None. */
  datatype ExpirySetting = Unset | SetTo(days: Option<int>)

  /** `getattr(settings, "PASSWORD_EXPIRATION_DAYS", 180)`. */
  function ExpirationDays(setting: ExpirySetting): (d: Option<int>)
    ensures setting.Unset? ==> d == Some(180)
    ensures setting.SetTo? ==> d == setting.days
  {
    match setting
    case Unset => Some(180)
    case SetTo(days) => days
  }

  /** `is_password_expired` for a last-change time (seconds) and the current time. */
  function PasswordExpired(days: Option<int>, lastChanged: Option<int>, now: int): bool
  {
    if days.None? || days.value <= 0 then false
    else if lastChanged.None? then true
    else now > lastChanged.value + days.value * SecondsPerDay
  }

  /** Expiry is switched off by a missing or non-positive number of days, whatever the dates. */
  lemma NeverExpiresWhenDisabled(days: Option<int>, lastChanged: Option<int>, now: int)
    requires days.None? || days.value <= 0
    ensures !PasswordExpired(days, lastChanged, now)
  {
  }

  /** With expiry enabled: expired iff there is no last change, or the period after it has passed. */
  lemma ExpiredIff(days: int, lastChanged: Option<int>, now: int)
    requires days > 0
    ensures PasswordExpired(Some(days), lastChanged, now)
      <==> lastChanged.None? || now > lastChanged.value + days * SecondsPerDay
  {
  }

  /** A password changed `now` is not yet expired, at any positive expiry period. */
  lemma FreshPasswordNotExpired(setting: ExpirySetting, now: int)
    ensures !PasswordExpired(ExpirationDays(setting), Some(now), now)
  {
  }

  /** With the default setting a password expires exactly once 180 days have passed. */
  lemma DefaultPeriodIs180Days(lastChanged: int, now: int)
    ensures PasswordExpired(ExpirationDays(Unset), Some(lastChanged), now) <==> now - lastChanged > 180 * SecondsPerDay
  {
  }

  /** Expiry is monotone in time: once expired, a password stays expired. */
  lemma ExpiryIsMonotone(days: Option<int>, lastChanged: Option<int>, now: int, later: int)
    requires now <= later && PasswordExpired(days, lastChanged, now)
    ensures PasswordExpired(days, lastChanged, later)
  {
  }

  /** The e-mail that `save` and `clean` store: None for a missing or empty value, else the normalised value. */
  function StoredEmail(email: Option<string>, normalize: string -> string): (r: Option<string>)
    ensures r.None? <==> email.None? || email.value == ""
    ensures r.Some? ==> r.value == normalize(email.value)
  {
    if email.Some? && email.value != "" then Some(normalize(email.value)) else None
  }

  /** Saving twice stores the same as saving once when normalisation is idempotent. */
  lemma StoredEmailIdempotent(email: Option<string>, normalize: string -> string)
    requires forall s :: normalize(normalize(s)) == normalize(s)
    requires forall s :: s != "" ==> normalize(s) != ""
    ensures StoredEmail(StoredEmail(email, normalize), normalize) == StoredEmail(email, normalize)
  {
  }

  /** `get_full_name`: "first last" with surrounding whitespace stripped. */
  function FullName(first: string, last: string): string
  {
    Strip(first + " " + last)
  }

  /** Two names without surrounding whitespace are joined with one space. */
  lemma FullNameOfTwoNames(first: string, last: string)
    requires first != [] && !IsSpace(first[0]) && !IsSpace(first[|first| - 1])
    requires last != [] && !IsSpace(last[0]) && !IsSpace(last[|last| - 1])
    ensures FullName(first, last) == first + " " + last
  {
    var s := first + " " + last;
    assert s[0] == first[0] && s[|s| - 1] == last[|last| - 1];
    StripUnpadded(s);
  }

  /** With an empty last name the full name is the first name alone. */
  lemma FullNameOfFirstOnly(first: string)
    requires first != [] && !IsSpace(first[0]) && !IsSpace(first[|first| - 1])
    ensures FullName(first, "") == first
  {
    var s := first + " " + "";
    assert s[0] == first[0];
    assert TrimStart(s) == s;
    assert s[..|s| - 1] == first;
    assert TrimEnd(s) == TrimEnd(first);
  }

  /** With both names empty the full name is empty. */
  lemma FullNameOfNoNames()
    ensures FullName("", "") == ""
  {
    StripEmptyIff("" + " " + "");
  }

  const CustomIdRequired := "専用IDは必須です。"
  const SuperuserNeedsStaff := "スーパーユーザーは is_staff=True である必要があります。"
  const SuperuserNeedsSuperuser := "スーパーユーザーは is_superuser=True である必要があります。"

  /**
   * The ValueError `create_user` (superuser false) or `create_superuser`
   * (superuser true) raises, if any. A flag that the caller did not pass is
   * None; `setdefault` fills it first. The superuser checks come before the
   * custom id check.
   */
  function CreateError(customId: string, isStaff: Option<bool>, isSuperuser: Option<bool>, superuser: bool): (r: Option<string>)
    ensures !superuser ==> (r.Some? <==> customId == "") && (r.Some? ==> r.value == CustomIdRequired)
    ensures superuser && isStaff == Some(false) ==> r == Some(SuperuserNeedsStaff)
    ensures superuser && isStaff != Some(false) && isSuperuser == Some(false) ==> r == Some(SuperuserNeedsSuperuser)
    ensures r.None? <==> customId != "" && (superuser ==> isStaff != Some(false) && isSuperuser != Some(false))
  {
    if superuser && isStaff == Some(false) then Some(SuperuserNeedsStaff)
    else if superuser && isSuperuser == Some(false) then Some(SuperuserNeedsSuperuser)
    else if customId == "" then Some(CustomIdRequired)
    else None
  }

  /** The flag a created user gets: what the caller passed, else the `setdefault` value. */
  function FlagOf(given: Option<bool>, superuser: bool): (b: bool)
    ensures given.Some? ==> b == given.value
    ensures given.None? ==> b == superuser
  {
    if given.Some? then given.value else superuser
  }

  /** Every superuser that `create_superuser` accepts is both staff and superuser. */
  lemma CreatedSuperuserIsStaff(customId: string, isStaff: Option<bool>, isSuperuser: Option<bool>)
    requires CreateError(customId, isStaff, isSuperuser, true).None?
    ensures FlagOf(isStaff, true) && FlagOf(isSuperuser, true)
  {
  }

  /** A user `create_user` makes without flags is neither staff nor superuser. */
  lemma PlainUserHasNoPrivileges(customId: string)
    requires customId != ""
    ensures CreateError(customId, None, None, false).None?
    ensures !FlagOf(None, false)
  {
  }

  /** `CustomUser`: the fields the model logic reads and writes. Times are seconds. */
  class CustomUser {
    var customId: string
    var email: Option<string>
    var firstName: string
    var lastName: string
    var isStaff: bool
    var isSuperuser: bool
    var isActive: bool
    var password: string
    var passwordLastChanged: Option<int>

    /** `self.model(custom_id=..., email=..., **extra_fields)`: field defaults, joined now. */
    constructor (customId: string, email: Option<string>, isStaff: bool, isSuperuser: bool, now: int)
      ensures this.customId == customId && this.email == email
      ensures this.isStaff == isStaff && this.isSuperuser == isSuperuser
      ensures firstName == "" && lastName == "" && isActive && password == ""
      ensures passwordLastChanged == Some(now)
    {
      this.customId := customId;
      this.email := email;
      firstName := "";
      lastName := "";
      this.isStaff := isStaff;
      this.isSuperuser := isSuperuser;
      isActive := true;
      password := "";
      passwordLastChanged := Some(now);
    }

    /** `set_password`: stores the hash and stamps the change time; nothing else changes. */
    method SetPassword(raw: Option<string>, hash: Option<string> -> string, now: int)
      modifies this
      ensures password == hash(raw) && passwordLastChanged == Some(now)
      ensures customId == old(customId) && email == old(email) && firstName == old(firstName) && lastName == old(lastName)
      ensures isStaff == old(isStaff) && isSuperuser == old(isSuperuser) && isActive == old(isActive)
    {
      password := hash(raw);
      passwordLastChanged := Some(now);
    }

    /** `save` (and `clean`): an empty e-mail becomes None, any other is normalised. */
    method Save(normalize: string -> string)
      modifies this
      ensures email == StoredEmail(old(email), normalize)
      ensures customId == old(customId) && firstName == old(firstName) && lastName == old(lastName) && password == old(password)
      ensures passwordLastChanged == old(passwordLastChanged)
      ensures isStaff == old(isStaff) && isSuperuser == old(isSuperuser) && isActive == old(isActive)
    {
      if email.Some? && email.value != "" {
        email := Some(normalize(email.value));
      } else {
        email := None;
      }
    }

    function GetFullName(): string
      reads this
    {
      FullName(firstName, lastName)
    }

    /** The `is_password_expired` property under the given setting and clock. */
    function IsPasswordExpired(setting: ExpirySetting, now: int): bool
      reads this
    {
      PasswordExpired(ExpirationDays(setting), passwordLastChanged, now)
    }
  }

  /**
   * `create_user` (superuser false) and `create_superuser` (superuser true):
   * the error, or a new user with the flags filled in, the password set and
   * the user saved.
   */
  method CreateUser(customId: string, email: Option<string>, password: Option<string>,
                    isStaff: Option<bool>, isSuperuser: Option<bool>, superuser: bool,
                    hash: Option<string> -> string, normalize: string -> string, now: int)
    returns (u: CustomUser?, err: Option<string>)
    ensures err == CreateError(customId, isStaff, isSuperuser, superuser)
    ensures err.Some? <==> u == null
    ensures u != null ==> fresh(u) && u.customId == customId && u.email == StoredEmail(email, normalize)
    ensures u != null ==> u.isStaff == FlagOf(isStaff, superuser) && u.isSuperuser == FlagOf(isSuperuser, superuser)
    ensures u != null ==> u.password == hash(password) && u.passwordLastChanged == Some(now) && u.isActive
    ensures u != null ==> !u.IsPasswordExpired(Unset, now)
  {
    err := CreateError(customId, isStaff, isSuperuser, superuser);
    if err.Some? {
      return null, err;
    }
    u := new CustomUser(customId, email, FlagOf(isStaff, superuser), FlagOf(isSuperuser, superuser), now);
    u.SetPassword(password, hash, now);
    u.Save(normalize);
  }
}
