/**
 * The request hooks: every request learns who is signed in and which
 * organisations they belong to, and the auth guard then sends it to the
 * login page, to organisation setup or to the application home before any
 * page runs.
 */
module AuthHooks {

  import opened Wrappers
  import opened Strings
  import opened ValidationErrors

  datatype User = User(id: string)

  /** A live auth session; its contents do not matter to the decisions. */
  datatype Session = Session(accessToken: string)

  datatype Organization = Organization(id: string, name: string)

  /** A membership row joined with its organisation, when the join found one. */
  datatype Membership = Membership(id: string, organizationId: string, role: string, organizations: Option<Organization>)

  datatype SessionInfo = SessionInfo(session: Option<Session>, user: Option<User>, memberships: seq<Membership>)

  /**
   * `safeGetSession`, given what the auth service and the memberships
   * query answered: a failed or empty user lookup means nobody is signed
   * in, and a missing memberships answer counts as none.
   */
  function SafeGetSession(userLookupFailed: bool, user: Option<User>, session: Option<Session>, memberships: Option<seq<Membership>>): (r: SessionInfo)
    ensures userLookupFailed || user.None? ==> r == SessionInfo(None, None, [])
    ensures !userLookupFailed && user.Some? ==> r.user == user && r.session == session
    ensures !userLookupFailed && user.Some? && memberships.Some? ==> r.memberships == memberships.value
    ensures memberships.None? ==> r.memberships == []
  {
    if userLookupFailed || user.None? then SessionInfo(None, None, [])
    else SessionInfo(session, user, match memberships case Some(ms) => ms case None => [])
  }

  /** Nobody signed in means no session and no memberships. */
  lemma SignedOutHasNothing(userLookupFailed: bool, user: Option<User>, session: Option<Session>, memberships: Option<seq<Membership>>)
    ensures SafeGetSession(userLookupFailed, user, session, memberships).user.None? ==>
      SafeGetSession(userLookupFailed, user, session, memberships).session.None?
      && SafeGetSession(userLookupFailed, user, session, memberships).memberships == []
  {
  }

  datatype GuardDecision = RedirectTo(location: string) | Resolve

  /** `authGuard`: the four redirect rules, checked in order; the first that applies wins. */
  function AuthGuard(session: Option<Session>, memberships: seq<Membership>, pathname: string): GuardDecision
  {
    var isAuthPage := StartsWith(pathname, "/auth");
    var isSetupOrgPage := pathname == "/new-org";
    var hasOrg := |memberships| > 0;
    if session.None? && !isAuthPage && pathname != "/" then RedirectTo("/auth/login")
    else if session.Some? && !hasOrg && !isSetupOrgPage && !StartsWith(pathname, "/auth/") then RedirectTo("/new-org")
    else if session.Some? && hasOrg && (pathname == "/auth/login" || isSetupOrgPage) then RedirectTo("/")
    else if session.Some? && !hasOrg && pathname == "/auth/login" then RedirectTo("/new-org")
    else Resolve
  }

  /**
   * The pages each kind of visitor may open: anonymous visitors the auth
   * pages and the home page; signed-in users without an organisation the
   * setup page and the auth pages other than login; members every page but
   * login and setup.
   */
  predicate Allowed(signedIn: bool, hasOrg: bool, pathname: string) {
    if !signedIn then StartsWith(pathname, "/auth") || pathname == "/"
    else if !hasOrg then pathname == "/new-org" || (StartsWith(pathname, "/auth/") && pathname != "/auth/login")
    else pathname != "/auth/login" && pathname != "/new-org"
  }

  /** Where a visitor who may not stay is sent. */
  function Landing(signedIn: bool, hasOrg: bool): string {
    if !signedIn then "/auth/login" else if !hasOrg then "/new-org" else "/"
  }

  lemma AuthPrefix(pathname: string)
    requires StartsWith(pathname, "/auth/")
    ensures StartsWith(pathname, "/auth")
  {
    assert pathname[..5] == pathname[..6][..5];
  }

  /**
   * The guard lets a request through exactly when the page is allowed, and
   * otherwise redirects to the visitor's landing page.
   */
  lemma GuardMatchesTable(session: Option<Session>, memberships: seq<Membership>, pathname: string)
    ensures AuthGuard(session, memberships, pathname).Resolve? <==> Allowed(session.Some?, |memberships| > 0, pathname)
    ensures AuthGuard(session, memberships, pathname).RedirectTo? ==>
      AuthGuard(session, memberships, pathname).location == Landing(session.Some?, |memberships| > 0)
  {
    if StartsWith(pathname, "/auth/") {
      AuthPrefix(pathname);
    }
  }

  /** A redirect never leads to a page the guard would redirect away from again. */
  lemma LandingIsAllowed(signedIn: bool, hasOrg: bool)
    ensures Allowed(signedIn, hasOrg, Landing(signedIn, hasOrg))
  {
    assert StartsWith("/auth/login", "/auth");
  }

  datatype ValidationFailure = ValidationFailure(message: string, issues: seq<StructuredValidationError>)

  /** `handleValidationError`: a fixed message with every issue formatted, in order. */
  function HandleValidationError(issues: seq<ValidationIssue>): (r: ValidationFailure)
    ensures r.message == "Validation failed"
    ensures |r.issues| == |issues|
    ensures forall i :: 0 <= i < |issues| ==> r.issues[i] == FormatIssue(issues[i])
    ensures forall i :: 0 <= i < |r.issues| ==> r.issues[i].message != "" && r.issues[i].path == IssuePath(issues[i])
  {
    ValidationFailure("Validation failed", FormatValidationErrors(issues))
  }
}
