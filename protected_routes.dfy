/** The gate in front of the signed-in pages (src/components/ProtectedRoutes.tsx). */
module ProtectedRoutes {
  import opened Options
  import AuthContext

  datatype Gate = LoadingScreen | Redirect(to: string, replace: bool) | Outlet

  /** The gate's decision from the auth context's `loading` and `user`. */
  function Decide(loading: bool, user: Option<AuthContext.User>): (g: Gate)
    ensures loading ==> g == LoadingScreen
    ensures !loading && user.None? ==> g == Redirect("/signin", true)
    ensures g == Outlet <==> !loading && user.Some?
  {
    if loading then LoadingScreen
    else if user.None? then Redirect("/signin", true)
    else Outlet
  }

  /** The gate asks for no more than some user: an anonymous user passes. */
  lemma AnonymousUserPasses(user: AuthContext.User)
    requires user.isAnonymous
    ensures Decide(false, Some(user)) == Outlet
  {
  }
}
