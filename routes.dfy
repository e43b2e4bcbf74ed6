/** The client's route table (frontend/src/App.jsx) and its token-presence
    gate (frontend/src/components/ProtectedRoute.jsx). Both read the stored
    access token; rendering is reduced to the element each route yields. */
module Routes {
  import opened Wrappers
  import opened Js
  import opened Jwt

  /** The pages a route can render. */
  datatype Page = LoginView | RegisterView | HomeView

  /** What a route element amounts to. */
  datatype Element =
    | Redirect(to: string, from: Option<string>, replace: bool)  // <Navigate to state={{from}} replace>
    | Render(page: Page)
    | Leave(url: string)       // the `window.location.href` assignment
    | RenderError              // an exception thrown while rendering

  /** `ProtectedRoute`: without a truthy stored access token, a replacing
      redirect to /login that remembers where the user was going; with one,
      the child itself. Only presence is checked, never the contents. */
  function ProtectedRoute(access: Option<string>, location: string, child: Page): (e: Element)
    ensures !Truthy(access) <==> e == Redirect("/login", Some(location), true)
    ensures Truthy(access) <==> e == Render(child)
  {
    if !Truthy(access) then Redirect("/login", Some(location), true) else Render(child)
  }

  /** Two stored tokens that are both present are treated alike by the gate,
      whatever they hold: a malformed or expired token passes. */
  lemma GateIgnoresTokenContents(a: string, b: string, location: string, child: Page)
    requires a != "" && b != ""
    ensures ProtectedRoute(Some(a), location, child) == ProtectedRoute(Some(b), location, child) == Render(child)
  {
  }

  /** `checkIsAdmin`: `Some(true)` exactly when a stored three-segment token
      decodes to role "admin"; `Some(false)` when there is no token, it does
      not have three segments, or the decoded role is something else; `None`
      when decoding throws (nothing catches it during rendering). */
  function CheckIsAdmin(access: Option<string>, decode: string -> Option<Claims>): (r: Option<bool>)
    ensures !Truthy(access) ==> r == Some(false)
    ensures Truthy(access) && ReadPayload(access.value, decode).Malformed? ==> r == Some(false)
    ensures r.None? <==> Truthy(access) && ReadPayload(access.value, decode).Unreadable?
    ensures r == Some(true) <==>
              Truthy(access) && ReadPayload(access.value, decode).Decoded?
              && RoleSaysAdmin(ReadPayload(access.value, decode).claims)
  {
    if !Truthy(access) then Some(false)
    else
      match ReadPayload(access.value, decode)
      case Malformed => Some(false)
      case Unreadable => None
      case Decoded(claims) => Some(RoleSaysAdmin(claims))
  }

  /** The route table as it stands once App has rendered: the "/" element
      was built at that render and is a replacing redirect to /home (had
      `checkIsAdmin` held, the browser would already have left). /login and
      /register render their pages; /home is the home page behind the gate;
      anything else redirects to /home. Navigating within the application,
      after a login for instance, does not build the "/" element again. */
  function Route(path: string, access: Option<string>): (e: Element)
    ensures path == "/home" ==> e == ProtectedRoute(access, "/home", HomeView)
    ensures path == "/login" ==> e == Render(LoginView)
    ensures path == "/register" ==> e == Render(RegisterView)
    ensures path !in {"/login", "/register", "/home"} ==> e == Redirect("/home", None, true)
    ensures e == Render(HomeView) <==> path == "/home" && Truthy(access)
    ensures !e.Leave? && !e.RenderError?
    ensures e.Redirect? ==> e.replace && (e.to == "/home" || e.to == "/login")
  {
    if path == "/login" then Render(LoginView)
    else if path == "/register" then Render(RegisterView)
    else if path == "/home" then ProtectedRoute(access, "/home", HomeView)
    else Redirect("/home", None, true)
  }

  /** A page load at `path`: App's render evaluates `checkIsAdmin()` while
      building the "/" element, before any route is matched. So an admin
      token sends the browser to the admin site whatever the path, an
      undecodable three-segment token throws whatever the path, and
      otherwise the path is routed. */
  function Load(path: string, access: Option<string>, decode: string -> Option<Claims>): (e: Element)
    ensures e == Leave(AdminSiteUrl) <==> CheckIsAdmin(access, decode) == Some(true)
    ensures e == RenderError <==> CheckIsAdmin(access, decode).None?
    ensures CheckIsAdmin(access, decode) == Some(false) ==> e == Route(path, access)
  {
    match CheckIsAdmin(access, decode)
    case Some(true) => Leave(AdminSiteUrl)
    case None => RenderError
    case Some(false) => Route(path, access)
  }

  /** Without a stored token no page load renders the home page or leaves for
      the admin site: every way in ends at the login page after at most two
      redirects. */
  lemma NoTokenNeverReachesHome(path: string, decode: string -> Option<Claims>)
    ensures Load(path, None, decode) == Route(path, None)
    ensures Load(path, None, decode) != Render(HomeView)
    ensures var e := Load(path, None, decode);
            e.Redirect? && e.to == "/home" ==> Route(e.to, None) == Redirect("/login", Some("/home"), true)
  {
  }
}
