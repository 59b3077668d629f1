/**
 * The application shell (frontend/src/App.tsx): the redirect between the
 * desktop and the mobile screens by user agent, the session check that
 * decides whether the user is signed in and is staff, logging out, and the
 * routes reserved to staff.
 */
module AppShell {
  import opened Common

  // ---------------------------------------------------------------------
  // The mobile redirect
  // ---------------------------------------------------------------------

  /** The words of the mobile user-agent pattern, matched without regard to ASCII case. */
  const MobileAgentWords := ["Android", "webOS", "iPhone", "iPad", "iPod", "BlackBerry", "IEMobile", "Opera Mini"]

  /** `/Android|webOS|…|Opera Mini/i.test(userAgent)`. */
  predicate IsMobileAgent(userAgent: string)
  {
    exists k | 0 <= k < |MobileAgentWords| :: Contains(LowerAscii(userAgent), LowerAscii(MobileAgentWords[k]))
  }

  /** The test ignores ASCII case: an agent and its lower-cased form are judged alike. */
  lemma MobileAgentIgnoresCase(userAgent: string)
    ensures IsMobileAgent(LowerAscii(userAgent)) <==> IsMobileAgent(userAgent)
  {
    var low := LowerAscii(userAgent);
    LowerAsciiAt(userAgent);
    LowerAsciiAt(low);
    assert LowerAscii(low) == low;
  }

  /** An iPhone's agent, in any ASCII case, is a mobile agent. */
  lemma IPhoneIsMobile(userAgent: string, i: nat)
    requires OccursAt(LowerAscii(userAgent), "iphone", i)
    ensures IsMobileAgent(userAgent)
  {
    LowerAsciiAt(MobileAgentWords[2]);
    assert LowerAscii(MobileAgentWords[2]) == "iphone";
  }

  const LoginPath := "/login"
  const MobilePrefix := "/mobile"
  const MobileLoginPath := "/mobile/login"
  const TopPath := "/"

  /**
   * `MobileRedirector`: a mobile agent is sent from the desktop login to the
   * mobile login and from any other desktop path to the mobile top; a
   * desktop agent is sent from any mobile path to the top. None means the
   * path stays.
   */
  function Redirect(isMobile: bool, path: string): (target: Option<string>)
    ensures isMobile && path == LoginPath ==> target == Some(MobileLoginPath)
    ensures isMobile && path != LoginPath && !StartsWith(path, MobilePrefix) ==> target == Some(MobilePrefix)
    ensures isMobile && StartsWith(path, MobilePrefix) ==> target.None?
    ensures !isMobile && StartsWith(path, MobilePrefix) ==> target == Some(TopPath)
    ensures !isMobile && !StartsWith(path, MobilePrefix) ==> target.None?
  {
    if isMobile && path == LoginPath then Some(MobileLoginPath)
    else if isMobile && !StartsWith(path, MobilePrefix) then Some(MobilePrefix)
    else if !isMobile && StartsWith(path, MobilePrefix) then Some(TopPath)
    else None
  }

  /** A mobile agent never stays outside the mobile screens, and a desktop agent never stays inside them. */
  lemma RedirectSeparatesScreens(isMobile: bool, path: string)
    ensures var landed := if Redirect(isMobile, path).Some? then Redirect(isMobile, path).value else path;
      StartsWith(landed, MobilePrefix) <==> isMobile
  {
    if isMobile && path == LoginPath {
      assert MobileLoginPath[..|MobilePrefix|] == MobilePrefix;
    } else if isMobile && !StartsWith(path, MobilePrefix) {
      assert MobilePrefix[..|MobilePrefix|] == MobilePrefix;
    }
  }

  /** Every redirect lands on a path that needs no further redirect: one step reaches a fixed point. */
  lemma RedirectSettles(isMobile: bool, path: string)
    requires Redirect(isMobile, path).Some?
    ensures Redirect(isMobile, Redirect(isMobile, path).value).None?
  {
    RedirectSeparatesScreens(isMobile, path);
    if isMobile {
      assert StartsWith(Redirect(isMobile, path).value, MobilePrefix);
    }
  }

  // ---------------------------------------------------------------------
  // Staff routes
  // ---------------------------------------------------------------------

  /** The routes wrapped in `StaffRoute`. */
  const StaffPaths := [
    "/user/management", "/system/settings", "/system/csv-mappings", "/system/model-display-settings",
    "/system/page-display-settings", "/system/qr-code-actions", "/system/shelf-qr-code"]

  /** What a route renders: its page, or a redirect. */
  datatype RouteOutcome = RenderPage | NavigateTo(path: string)

  /** `StaffRoute`: a staff path sends a user who is not staff to the top; everything else renders. */
  function StaffRouteOutcome(isStaff: bool, path: string): (o: RouteOutcome)
    ensures o.NavigateTo? <==> path in StaffPaths && !isStaff
    ensures o.NavigateTo? ==> o.path == TopPath
  {
    if path in StaffPaths && !isStaff then NavigateTo(TopPath) else RenderPage
  }

  // ---------------------------------------------------------------------
  // The session
  // ---------------------------------------------------------------------

  const SessionUrl := "/api/users/session/"

  /** The session endpoint's answer (always 200 from the server), a non-OK status, or a thrown error. */
  datatype SessionAnswer =
    | SessionInfo(isAuthenticated: bool, isStaff: bool, isSuperuser: bool)
    | SessionNotOk
    | SessionThrown

  /** What `get_session_info` answers for a signed-in user and for an anonymous one. */
  function SessionInfoFor(signedIn: bool, isStaff: bool, isSuperuser: bool): (a: SessionAnswer)
    ensures a.SessionInfo? && a.isAuthenticated == signedIn
    ensures !signedIn ==> !a.isStaff && !a.isSuperuser
  {
    if signedIn then SessionInfo(true, isStaff, isSuperuser) else SessionInfo(false, false, false)
  }

  class Shell {
    var accessToken: Option<string>
    var refreshToken: Option<string>
    var isAuthenticated: bool
    var isStaff: bool
    var menuOpen: bool
    var versionModalOpen: bool
    var loading: bool

    /** A token is present and not empty. */
    predicate HasToken()
      reads this
    {
      accessToken.Some? && accessToken.value != ""
    }

    /** The first render: signed in exactly when a token is stored, never staff, and loading. */
    constructor (storedAccess: Option<string>, storedRefresh: Option<string>)
      ensures accessToken == storedAccess && refreshToken == storedRefresh
      ensures isAuthenticated <==> HasToken()
      ensures !isStaff && !menuOpen && !versionModalOpen && loading
    {
      accessToken, refreshToken := storedAccess, storedRefresh;
      isAuthenticated := storedAccess.Some? && storedAccess.value != "";
      isStaff, menuOpen, versionModalOpen, loading := false, false, false, true;
    }

    /** `handleLogout`: both tokens removed, signed out and not staff. */
    method HandleLogout()
      modifies this`accessToken, this`refreshToken, this`isAuthenticated, this`isStaff
      ensures accessToken.None? && refreshToken.None? && !isAuthenticated && !isStaff
    {
      accessToken, refreshToken := None, None;
      isAuthenticated, isStaff := false, false;
    }

    /**
     * `checkAuth`: without a token the user is signed out and not staff;
     * otherwise the session answer decides, staff meaning staff or superuser,
     * and a failed check logs out. Loading always ends.
     */
    method CheckAuth(answer: SessionAnswer) returns (url: Option<string>)
      modifies this`accessToken, this`refreshToken, this`isAuthenticated, this`isStaff, this`loading
      ensures !loading
      ensures !old(HasToken()) ==> url.None? && !isAuthenticated && !isStaff
      ensures !old(HasToken()) ==> accessToken == old(accessToken) && refreshToken == old(refreshToken)
      ensures old(HasToken()) ==> url == Some(SessionUrl)
      ensures old(HasToken()) && answer.SessionInfo? ==>
        isAuthenticated == answer.isAuthenticated && isStaff == (answer.isStaff || answer.isSuperuser)
      ensures old(HasToken()) && answer.SessionInfo? ==> accessToken == old(accessToken) && refreshToken == old(refreshToken)
      ensures old(HasToken()) && !answer.SessionInfo? ==>
        accessToken.None? && refreshToken.None? && !isAuthenticated && !isStaff
    {
      if !HasToken() {
        loading, isAuthenticated, isStaff := false, false, false;
        return None;
      }
      url := Some(SessionUrl);
      match answer {
        case SessionInfo(authenticated, staff, superuser) =>
          isAuthenticated, isStaff := authenticated, staff || superuser;
        case _ =>
          HandleLogout();
      }
      loading := false;
    }

    /** The hamburger button. */
    method ToggleMenu()
      modifies this`menuOpen
      ensures menuOpen == !old(menuOpen)
    {
      menuOpen := !menuOpen;
    }

    /** A menu link, the overlay. */
    method CloseMenu()
      modifies this`menuOpen
      ensures !menuOpen
    {
      menuOpen := false;
    }

    /** While the session check runs only "Loading..." renders: no route and no redirect. */
    predicate RoutesShown()
      reads this
    {
      !loading
    }
  }

  /** After a logout every staff route sends the user to the top. */
  lemma LogoutClosesStaffRoutes(s: Shell, path: string)
    requires !s.isStaff && path in StaffPaths
    ensures StaffRouteOutcome(s.isStaff, path) == NavigateTo(TopPath)
  {
  }

  /** A session check of an anonymous session leaves the user signed out and not staff. */
  lemma AnonymousSessionNotStaff(staff: bool, superuser: bool)
    ensures var a := SessionInfoFor(false, staff, superuser);
      !a.isAuthenticated && !(a.isStaff || a.isSuperuser)
  {
  }

  /** A superuser who is not marked staff still reaches the staff routes. */
  lemma SuperuserReachesStaffRoutes(path: string)
    ensures var a := SessionInfoFor(true, false, true);
      StaffRouteOutcome(a.isStaff || a.isSuperuser, path) == RenderPage
  {
  }
}
