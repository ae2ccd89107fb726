/** The client-side route guards: src/components/guards/AuthGuard.tsx,
    HideAuthGuard.tsx and GuestGuard.tsx, and the `withAuth` wrapper of
    src/lib/withAuth.js. Each decides from the session status, the user's
    role and the roles a page requires whether to show a spinner, nothing or
    the page, and where to navigate. */
module Guards {
  import opened Common
  import AuthOptions

  type Object = map<string, Json>

  /** `useSession().status` */
  datatype Status = Loading | Authenticated | Unauthenticated

  /** A navigation the guard starts, if any. */
  datatype Navigation = Stay | Replace(path: string) | Push(path: string)

  /** What the guard renders. */
  datatype View = Spinner | Nothing | Children

  const SignIn := "/auth/sign-in"
  const Unauthorized := "/unauthorized"
  const LabDashboard := "/dashboard/lab1"

  /** `requiredRoles.length === 0 || requiredRoles.includes(role)`; a role that
      is absent or not a string matches no listed role. */
  predicate Allowed(requiredRoles: seq<string>, role: Json) {
    |requiredRoles| == 0 || (role.Str? && role.s in requiredRoles)
  }

  // ------------------------------------------------------------------ AuthGuard.tsx

  /** AuthGuard's `loading` state; it starts true and only the effect clears it. */
  class AuthGuard {
    var loading: bool

    constructor ()
      ensures loading
    {
      loading := true;
    }

    /** The render: a spinner while the session or the guard is loading. */
    function Render(status: Status): (v: View)
      reads this
      ensures v == Children <==> status != Loading && !loading
      ensures v != Nothing
    {
      if status == Loading || loading then Spinner else Children
    }

    /** The effect: nothing while loading; sign-in for a guest; the
        unauthorised page for a role the page does not allow; otherwise the
        guard stops loading. */
    method Effect(status: Status, userRole: Json, requiredRoles: seq<string>) returns (nav: Navigation)
      modifies this
      ensures status == Loading ==> nav == Stay && loading == old(loading)
      ensures status == Unauthenticated ==> nav == Replace(SignIn) && loading == old(loading)
      ensures status == Authenticated && !Allowed(requiredRoles, userRole) ==>
        nav == Replace(Unauthorized) && loading == old(loading)
      ensures status == Authenticated && Allowed(requiredRoles, userRole) ==> nav == Stay && !loading
    {
      nav := Stay;
      if status == Loading {
        return;
      }
      if status == Unauthenticated {
        nav := Replace(SignIn);
      } else if |requiredRoles| > 0 && !(userRole.Str? && userRole.s in requiredRoles) {
        nav := Replace(Unauthorized);
      } else {
        loading := false;
      }
    }
  }

  /** A fresh guard whose effect refuses the session never shows the page. */
  method RefusedNeverRenders(status: Status, userRole: Json, requiredRoles: seq<string>) returns (v: View)
    requires status == Unauthenticated || (status == Authenticated && !Allowed(requiredRoles, userRole))
    ensures v == Spinner
  {
    var guard := new AuthGuard();
    var _ := guard.Effect(status, userRole, requiredRoles);
    v := guard.Render(status);
  }

  // ------------------------------------------------------------------ HideAuthGuard.tsx

  /** HideAuthGuard: nothing while loading, for a guest or for a role the
      element does not allow; otherwise the element. */
  function HideAuthGuard(status: Status, userRole: Json, requiredRoles: seq<string>): (v: View)
    ensures v == Children <==> status == Authenticated && Allowed(requiredRoles, userRole)
    ensures v != Spinner
  {
    match status
    case Loading => Nothing
    case Unauthenticated => Nothing
    case Authenticated => if Allowed(requiredRoles, userRole) then Children else Nothing
  }

  // ------------------------------------------------------------------ GuestGuard.tsx

  /** The text `useSession()` gives for a status. */
  function StatusText(status: Status): string {
    match status
    case Loading => "loading"
    case Authenticated => "authenticated"
    case Unauthenticated => "unauthenticated"
  }

  /** The data members of the object `useAuth` returns (src/hooks/useAuth.ts):
      `isAuthenticated` is whether there is a session, `status` is passed on,
      and there is no `isInitialized` member. */
  function UseAuth(session: Option<Object>, status: Status): (r: Object)
    ensures Member(r, "isAuthenticated") == Bool(session.Some?)
    ensures Member(r, "status") == Str(StatusText(status))
    ensures "isInitialized" !in r
  {
    map["isAuthenticated" := Bool(session.Some?), "status" := Str(StatusText(status))]
  }

  /** The hook as GuestGuard expects it: `isInitialized` is set once the
      session has stopped loading. */
  function UseAuthCorrected(session: Option<Object>, status: Status): (r: Object)
    ensures Truthy(Member(r, "isInitialized")) <==> status != Loading
    ensures Truthy(Member(r, "isAuthenticated")) <==> session.Some?
  {
    UseAuth(session, status)["isInitialized" := Bool(status != Loading)]
  }

  /** GuestGuard's `isRedirecting` state; it starts false. */
  class GuestGuard {
    var redirecting: bool

    constructor ()
      ensures !redirecting
    {
      redirecting := false;
    }

    /** The render reads `isInitialized` from the hook's result: a spinner
        until it is truthy and while redirecting. */
    function Render(auth: Object): (v: View)
      reads this
      ensures v == Children <==> Truthy(Member(auth, "isInitialized")) && !redirecting
      ensures v != Nothing
    {
      if !Truthy(Member(auth, "isInitialized")) || redirecting then Spinner else Children
    }

    /** The effect redirects a signed-in visitor to the first lab's
        dashboard, and only when both members are truthy. */
    method Effect(auth: Object) returns (nav: Navigation)
      modifies this
      ensures Truthy(Member(auth, "isInitialized")) && Truthy(Member(auth, "isAuthenticated")) ==>
        nav == Push(LabDashboard) && redirecting
      ensures !(Truthy(Member(auth, "isInitialized")) && Truthy(Member(auth, "isAuthenticated"))) ==>
        nav == Stay && redirecting == old(redirecting)
    {
      nav := Stay;
      if Truthy(Member(auth, "isInitialized")) && Truthy(Member(auth, "isAuthenticated")) {
        redirecting := true;
        nav := Push(LabDashboard);
      }
    }
  }

  /** A fresh guard mounted with a hook result: the effect runs after the
      first render, and the view is the render that follows it. */
  method MountGuestGuard(auth: Object) returns (nav: Navigation, v: View)
    ensures nav == Push(LabDashboard) <==>
      Truthy(Member(auth, "isInitialized")) && Truthy(Member(auth, "isAuthenticated"))
    ensures v == Children <==>
      Truthy(Member(auth, "isInitialized")) && !Truthy(Member(auth, "isAuthenticated"))
    ensures nav == Stay || nav == Push(LabDashboard)
    ensures v != Nothing
  {
    var guard := new GuestGuard();
    nav := guard.Effect(auth);
    v := guard.Render(auth);
  }

  /** As written, `useAuth` has no `isInitialized`, so GuestGuard never
      redirects and never shows the guest page: every visitor, signed in or
      not, sees the spinner for good. */
  method GuestGuardAsWritten(session: Option<Object>, status: Status) returns (nav: Navigation, v: View)
    ensures nav == Stay && v == Spinner
  {
    nav, v := MountGuestGuard(UseAuth(session, status));
  }

  /** With `isInitialized` supplied, a guest sees the page once the session
      has loaded and a signed-in visitor is sent to the lab dashboard. */
  method GuestGuardCorrected(session: Option<Object>, status: Status) returns (nav: Navigation, v: View)
    ensures v == Children <==> status != Loading && session.None?
    ensures nav == Push(LabDashboard) <==> status != Loading && session.Some?
    ensures v != Nothing
  {
    nav, v := MountGuestGuard(UseAuthCorrected(session, status));
  }

  /** Once the guard has seen a signed-in visitor it shows the spinner, never the guest page. */
  method SignedInSeesSpinner(auth: Object) returns (v: View)
    requires Truthy(Member(auth, "isInitialized")) && Truthy(Member(auth, "isAuthenticated"))
    ensures v == Spinner
  {
    var guard := new GuestGuard();
    var _ := guard.Effect(auth);
    v := guard.Render(auth);
  }

  // ------------------------------------------------------------------ withAuth.js

  /** The role member `withAuth` reads from the session's user. */
  const WithAuthRoleKey := "user_role"

  /** The role member the session callback writes. */
  const SessionRoleKey := "userRole"

  /** The navigation of `withAuth`'s effect, reading the role from `roleKey`. */
  function WithAuthEffect(status: Status, session: Option<Object>, requiredRoles: seq<string>, roleKey: string): (nav: Navigation)
    ensures status == Loading ==> nav == Stay
    ensures status != Loading && session.None? ==> nav == Push(SignIn)
    ensures nav == Push(Unauthorized) <==>
      status != Loading && session.Some? && !Allowed(requiredRoles, Member(session.value, roleKey))
  {
    if status == Loading then Stay
    else if session.None? then Push(SignIn)
    else if |requiredRoles| > 0 && !Allowed(requiredRoles, Member(session.value, roleKey)) then Push(Unauthorized)
    else Stay
  }

  /** What `withAuth` renders, reading the role from `roleKey`. */
  function WithAuthRender(status: Status, session: Option<Object>, requiredRoles: seq<string>, roleKey: string): (v: View)
    ensures v == Children <==>
      status != Loading && session.Some? && Allowed(requiredRoles, Member(session.value, roleKey))
    ensures v != Spinner
  {
    if status == Loading || session.None? then Nothing
    else if Allowed(requiredRoles, Member(session.value, roleKey)) then Children
    else Nothing
  }

  /** As written, `withAuth` reads `user_role`, a member no session has: a
      signed-in user whose role a page lists is sent to the unauthorised
      page and never sees it. */
  lemma ListedRoleLockedOut(token: Object, u: AuthOptions.AuthUser, requiredRoles: seq<string>)
    requires u.userRole in requiredRoles
    ensures var session := Some(AuthOptions.SessionUser(AuthOptions.Jwt(token, Some(AuthOptions.AsObject(u)))));
      && WithAuthRender(Authenticated, session, requiredRoles, WithAuthRoleKey) == Nothing
      && WithAuthEffect(Authenticated, session, requiredRoles, WithAuthRoleKey) == Push(Unauthorized)
  {
    AuthOptions.SessionOfSignIn(token, u);
  }

  /** Reading `userRole` instead, the page renders for exactly the users whose
      role it lists (or for everyone when it lists none). */
  lemma RoleKeyCorrected(token: Object, u: AuthOptions.AuthUser, requiredRoles: seq<string>)
    ensures var session := Some(AuthOptions.SessionUser(AuthOptions.Jwt(token, Some(AuthOptions.AsObject(u)))));
      && (WithAuthRender(Authenticated, session, requiredRoles, SessionRoleKey) == Children <==>
            |requiredRoles| == 0 || u.userRole in requiredRoles)
      && (WithAuthEffect(Authenticated, session, requiredRoles, SessionRoleKey) == Stay <==>
            |requiredRoles| == 0 || u.userRole in requiredRoles)
  {
    AuthOptions.SessionOfSignIn(token, u);
  }
}

/** The request middleware of middleware.ts: public routes pass, `/admin`
    paths need a session whose role is `OWNER`, other paths need a session. */
module Middleware {
  import opened Common
  import AuthOptions

  type Object = map<string, Json>

  datatype Response = Next | Redirect(path: string)

  const PublicRoutes: seq<string> := ["/auth/sign-in", "/auth/sign-up", "/auth/forgot-password"]

  predicate StartsWith(s: string, prefix: string) {
    |prefix| <= |s| && s[..|prefix|] == prefix
  }

  predicate IsPublic(path: string) {
    exists i :: 0 <= i < |PublicRoutes| && StartsWith(path, PublicRoutes[i])
  }

  /** The response for a path and the server session's user, if any. */
  function Handle(path: string, session: Option<Object>): (r: Response)
    ensures IsPublic(path) ==> r == Next
    ensures !IsPublic(path) && session.None? ==> r == Redirect("/auth/sign-in")
    ensures r == Redirect("/unauthorized") <==>
      !IsPublic(path) && StartsWith(path, "/admin") && session.Some? && Member(session.value, "role") != Str("OWNER")
  {
    if IsPublic(path) then Next
    else if StartsWith(path, "/admin") then
      if session.None? then Redirect("/auth/sign-in")
      else if Member(session.value, "role") != Str("OWNER") then Redirect("/unauthorized")
      else Next
    else if session.None? then Redirect("/auth/sign-in")
    else Next
  }

  /** The paths the `matcher` configuration runs the middleware on. */
  predicate Matched(path: string) {
    StartsWith(path, "/dashboard/") || StartsWith(path, "/profile/")
  }

  /** On every path it is configured for, the middleware only checks for a
      session: none of them is public or under `/admin`. */
  lemma MatchedPathsNeedSession(path: string, session: Option<Object>)
    requires Matched(path)
    ensures Handle(path, session) == (if session.None? then Redirect("/auth/sign-in") else Next)
  {
    assert path[0] == '/';
    assert path[1] == 'd' || path[1] == 'p';
  }

  /** No session the sign-in callbacks build has a `role` member, so an
      `/admin` path is never let through. */
  lemma AdminAlwaysRefused(path: string, token: Object, u: AuthOptions.AuthUser)
    requires StartsWith(path, "/admin") && !IsPublic(path)
    ensures Handle(path, Some(AuthOptions.SessionUser(AuthOptions.Jwt(token, Some(AuthOptions.AsObject(u)))))) ==
      Redirect("/unauthorized")
  {
    AuthOptions.SessionOfSignIn(token, u);
  }
}
