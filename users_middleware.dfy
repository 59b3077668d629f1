/**
 * `PasswordExpirationMiddleware` (backend/src/users/middleware.py): which
 * requests are checked for an expired password, and the 403 answer a
 * checked request with an expired password gets.
 */
module UsersMiddleware {
  import opened Common
  import UsersModels

  /** `request.resolver_match`: the namespaced view name and the application name. */
  datatype ResolverMatch = ResolverMatch(viewName: string, appName: string)

  const ExemptViewNames: set<string> := {
    "users_api:api_login",
    "users_api:api_logout",
    "users_api:api_user_password_change",
    "users_api:api_session_info",
    "admin:logout"
  }

  const PasswordExpiredCode := "password_expired"
  const PasswordExpiredDetail := "パスワードの有効期限が切れています。新しいパスワードを設定してください。"

  /** `_should_check_password_expiration`. */
  function ShouldCheck(authenticated: bool, rm: Option<ResolverMatch>): (r: bool)
    ensures !authenticated ==> !r
    ensures authenticated && rm.None? ==> r
    ensures authenticated && rm.Some? ==> (r <==> rm.value.viewName !in ExemptViewNames && rm.value.appName != "admin")
  {
    if !authenticated then false
    else if rm.None? then true
    else if rm.value.viewName in ExemptViewNames then false
    else if rm.value.appName == "admin" then false
    else true
  }

  /** What `process_view` answers: let the view run, or a JSON 403. */
  datatype Decision = Pass | Forbidden(status: int, code: string, detail: string)

  /** `process_view` for a user whose `is_password_expired` property is `expired`. */
  function ProcessView(authenticated: bool, rm: Option<ResolverMatch>, expired: bool): (d: Decision)
    ensures d.Forbidden? <==> ShouldCheck(authenticated, rm) && expired
    ensures d.Forbidden? ==> d == Forbidden(403, PasswordExpiredCode, PasswordExpiredDetail)
  {
    if !ShouldCheck(authenticated, rm) then Pass
    else if expired then Forbidden(403, PasswordExpiredCode, PasswordExpiredDetail)
    else Pass
  }

  /** The login, logout, password-change and session-info endpoints stay reachable with an expired password. */
  lemma ExemptViewsReachable(rm: ResolverMatch, expired: bool)
    requires rm.viewName in ExemptViewNames || rm.appName == "admin"
    ensures ProcessView(true, Some(rm), expired) == Pass
  {
  }

  /** The password-change endpoint in particular is exempt, so an expired user can always renew. */
  lemma PasswordChangeAlwaysReachable(expired: bool)
    ensures ProcessView(true, Some(ResolverMatch("users_api:api_user_password_change", "users_api")), expired) == Pass
  {
  }

  /** An ordinary API view is refused for an expired user and allowed otherwise. */
  lemma OrdinaryViewChecked(appName: string, expired: bool)
    requires appName != "admin"
    ensures ProcessView(true, Some(ResolverMatch("inventory_api:inventory-list", appName)), expired).Forbidden? <==> expired
  {
    assert "inventory_api:inventory-list" !in ExemptViewNames;
  }

  /** A user whose password was changed now is never refused, under any setting. */
  lemma FreshPasswordPasses(setting: UsersModels.ExpirySetting, now: int, authenticated: bool, rm: Option<ResolverMatch>)
    ensures ProcessView(authenticated, rm, UsersModels.PasswordExpired(UsersModels.ExpirationDays(setting), Some(now), now)) == Pass
  {
    UsersModels.FreshPasswordNotExpired(setting, now);
  }
}
