/** The front-end route guards (frontend/src/components/RouteWrappers.jsx):
    each guard decides, from the session in the app context, whether to show
    the loading view, redirect, or render the nested routes. */
module RouteWrappers {

  import opened Base

  /** The app context the guards read. */
  datatype Session = Session(token: Option<string>, isVerified: bool, loading: bool)

  /** What a guard renders. `from` is the location a login redirect carries. */
  datatype View = LoadingView | Redirect(to: string, from: Option<string>) | Outlet

  const LOGIN_PATH: string := "/login"
  const VERIFY_PATH: string := "/verify-otp"
  const HOME_PATH: string := "/"

  /** `requireVerified = true`: the default applies only when the prop is absent. */
  function RequireVerified(prop: Option<bool>): bool
  {
    if prop.Some? then prop.value else true
  }

  /** `ProtectedWrapper`. */
  function ProtectedWrapper(s: Session, requireVerified: Option<bool>, location: string): (v: View)
    ensures s.loading ==> v == LoadingView
    ensures v == Outlet <==> !s.loading && Truthy(s.token) && (s.isVerified || !RequireVerified(requireVerified))
    ensures v.Redirect? && v.to == LOGIN_PATH ==> v.from == Some(location)
  {
    if s.loading then LoadingView
    else if !Truthy(s.token) then Redirect(LOGIN_PATH, Some(location))
    else if RequireVerified(requireVerified) && !s.isVerified then Redirect(VERIFY_PATH, None)
    else Outlet
  }

  /** `AuthWrapper`: the login and register pages, for visitors only. */
  function AuthWrapper(s: Session): (v: View)
    ensures s.loading ==> v == LoadingView
    ensures v == Outlet <==> !s.loading && !Truthy(s.token)
  {
    if s.loading then LoadingView
    else if Truthy(s.token) then Redirect(HOME_PATH, None)
    else Outlet
  }

  /** `PublicWrapper`: no rule at all. */
  function PublicWrapper(s: Session): (v: View)
    ensures v == Outlet
  {
    Outlet
  }

  /** Where each guard sends a settled session: no token goes to /login with
      the origin; a token without verification goes to /verify-otp unless
      the route opts out with `requireVerified` = false; with the opt-out any
      logged-in user gets in. The visitor-only guard sends every logged-in
      user home, so once loading is over, exactly one of the two guards
      renders its routes for a verified session or for a visitor. */
  lemma GuardDecisions(s: Session, location: string)
    requires !s.loading
    ensures !Truthy(s.token) ==> ProtectedWrapper(s, None, location) == Redirect(LOGIN_PATH, Some(location))
    ensures Truthy(s.token) && !s.isVerified ==> ProtectedWrapper(s, None, location) == Redirect(VERIFY_PATH, None)
    ensures Truthy(s.token) ==> ProtectedWrapper(s, Some(false), location) == Outlet
    ensures Truthy(s.token) ==> AuthWrapper(s) == Redirect(HOME_PATH, None)
    ensures s.isVerified || !Truthy(s.token) ==>
      (ProtectedWrapper(s, None, location) == Outlet <==> AuthWrapper(s) != Outlet)
  {
  }
}
