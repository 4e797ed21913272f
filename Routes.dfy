/** The application shell (src/App.tsx): which screen a path shows for the
    current session and admin flag, and how the session listener and the
    role lookup set that flag. The auth service and the `users` query are
    outside the model; their answers are parameters. */
module Routes {
  import opened Wrappers
  import opened Strings

  /** A signed-in session; `userId` is `session.user.id` when present. */
  datatype Session = Session(userId: Option<string>)

  /** The `state` a redirect carries. */
  datatype NavState = FromLocation(location: string) | AccessDenied(error: string) | NoState

  /** What is rendered. */
  datatype Screen =
    | Loading
    | PatientFormPage
    | LoginPage
    | AdminPanelPage
    | Redirect(to: string, state: NavState, replace: bool)

  const AccessDeniedText := "Access denied. Admin privileges required."

  /** `AppRoutes`: the element of the route matching `path`. */
  function Route(path: string, location: string, session: Option<Session>, isAdmin: bool): Screen {
    if path == "/" then
      if session.Some? then PatientFormPage else LoginPage
    else if path == "/admin" then
      if session.None? then Redirect("/", FromLocation(location), true)
      else if !isAdmin then Redirect("/", AccessDenied(AccessDeniedText), true)
      else AdminPanelPage
    else Redirect("/", NoState, true)
  }

  /** `App`: the spinner while loading, the routes afterwards. */
  function Render(isLoading: bool, path: string, location: string, session: Option<Session>, isAdmin: bool): (s: Screen)
    ensures s == Loading <==> isLoading
  {
    if isLoading then Loading else Route(path, location, session, isAdmin)
  }

  /** The decision table: "/" shows the form exactly with a session and the
      login page otherwise; the admin panel is shown exactly on "/admin"
      with a session and the admin flag; "/admin" without a session goes
      back to "/" remembering where it came from, with a session but no
      admin flag it goes back with the access-denied error; every other
      path goes back to "/". Every redirect goes to "/" and replaces the
      history entry. */
  lemma RouteTable(path: string, location: string, session: Option<Session>, isAdmin: bool)
    ensures Route(path, location, session, isAdmin) == PatientFormPage <==> path == "/" && session.Some?
    ensures Route(path, location, session, isAdmin) == LoginPage <==> path == "/" && session.None?
    ensures Route(path, location, session, isAdmin) == AdminPanelPage <==> path == "/admin" && session.Some? && isAdmin
    ensures path == "/admin" && session.None? ==>
      Route(path, location, session, isAdmin) == Redirect("/", FromLocation(location), true)
    ensures path == "/admin" && session.Some? && !isAdmin ==>
      Route(path, location, session, isAdmin) == Redirect("/", AccessDenied(AccessDeniedText), true)
    ensures path != "/" && path != "/admin" ==> Route(path, location, session, isAdmin) == Redirect("/", NoState, true)
    ensures Route(path, location, session, isAdmin).Redirect? ==>
      Route(path, location, session, isAdmin).to == "/" && Route(path, location, session, isAdmin).replace
    ensures Route(path, location, session, isAdmin) != Loading
  {
  }

  /** What the `users` role query answered. */
  datatype RoleLookup =
    | LookupError          // the query returned an error
    | LookupThrew          // the call threw
    | Found(role: Option<string>)  // `data?.role`

  /** The admin flag `checkAdminStatus` sets. */
  function IsAdminFrom(lookup: RoleLookup): (r: bool)
    ensures r <==> lookup == Found(Some("admin"))
  {
    match lookup
    case LookupError => false
    case LookupThrew => false
    case Found(role) => role == Some("admin")
  }

  /** `session?.user?.id` is truthy. */
  predicate HasUserId(session: Option<Session>) {
    session.Some? && Truthy(session.value.userId)
  }

  /** The shell's state. */
  class AppState {
    var session: Option<Session>
    var isAdmin: bool
    var isLoading: bool

    constructor ()
      ensures session == None && !isAdmin && isLoading
    {
      session := None;
      isAdmin := false;
      isLoading := true;
    }

    /** The current screen for a path. */
    function CurrentScreen(path: string, location: string): (s: Screen)
      reads this
      ensures s == Loading <==> isLoading
      ensures s == AdminPanelPage <==> !isLoading && path == "/admin" && session.Some? && isAdmin
      ensures s == PatientFormPage <==> !isLoading && path == "/" && session.Some?
    {
      RouteTable(path, location, session, isAdmin);
      Render(isLoading, path, location, session, isAdmin)
    }

    /** `checkAdminStatus(userId)` once the query answered. */
    method CheckAdminStatus(lookup: RoleLookup)
      modifies this
      ensures isAdmin == IsAdminFrom(lookup) && !isLoading && session == old(session)
    {
      match lookup {
        case LookupError => isAdmin := false;
        case LookupThrew => isAdmin := false;
        case Found(role) => isAdmin := role == Some("admin");
      }
      isLoading := false;
    }

    /** The first `getSession()` answer; `lookup` is consulted only when the
        session has a user id. */
    method OnInitialSession(s: Option<Session>, lookup: RoleLookup)
      modifies this
      ensures session == s && !isLoading
      ensures isAdmin == if HasUserId(s) then IsAdminFrom(lookup) else old(isAdmin)
    {
      session := s;
      if HasUserId(s) {
        CheckAdminStatus(lookup);
      } else {
        isLoading := false;
      }
    }

    /** An `onAuthStateChange` event; `lookup` is consulted only when the
        session has a user id. A session-less change clears the flag. */
    method OnAuthStateChange(s: Option<Session>, lookup: RoleLookup)
      modifies this
      ensures session == s && !isLoading
      ensures isAdmin == (HasUserId(s) && IsAdminFrom(lookup))
    {
      session := s;
      if HasUserId(s) {
        CheckAdminStatus(lookup);
      } else {
        isAdmin := false;
        isLoading := false;
      }
    }
  }

  /** After an auth change, the admin panel can be reached only with a
      session whose role lookup found `admin`. */
  lemma AdminPanelNeedsAdminRole(s: Option<Session>, lookup: RoleLookup, location: string)
    ensures Render(false, "/admin", location, s, HasUserId(s) && IsAdminFrom(lookup)) == AdminPanelPage
      <==> HasUserId(s) && lookup == Found(Some("admin"))
  {
    RouteTable("/admin", location, s, HasUserId(s) && IsAdminFrom(lookup));
  }
}
