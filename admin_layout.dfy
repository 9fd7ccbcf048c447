/**
 * `AdminLayout` of src/app/admin/layout.tsx: the redirect effect and the
 * render decision over `isLoading`, `isAuthenticated` and the current path.
 * The effect is modelled by the list of `router.push` targets it issues.
 */
module AdminLayout {
  import opened Views

  const LOGIN_PATH: string := "/admin/login"
  const DASHBOARD_PATH: string := "/admin/dashboard"

  /**
   * The redirect effect: nothing while loading; to the login page when
   * unauthenticated anywhere else; to the dashboard when authenticated on the
   * login page. The two checks are separate `if`s, yet at most one fires.
   */
  function Redirects(isLoading: bool, isAuthenticated: bool, pathname: string): (r: seq<string>)
    ensures |r| <= 1
    ensures isLoading ==> r == []
    ensures r == [LOGIN_PATH] <==> !isLoading && !isAuthenticated && pathname != LOGIN_PATH
    ensures r == [DASHBOARD_PATH] <==> !isLoading && isAuthenticated && pathname == LOGIN_PATH
    ensures r == [] <==> isLoading || (isAuthenticated <==> pathname != LOGIN_PATH)
  {
    assert [LOGIN_PATH] != [DASHBOARD_PATH] by {
      assert [LOGIN_PATH][0][7] != [DASHBOARD_PATH][0][7];
    }
    if isLoading then []
    else
      (if !isAuthenticated && pathname != LOGIN_PATH then [LOGIN_PATH] else [])
      + (if isAuthenticated && pathname == LOGIN_PATH then [DASHBOARD_PATH] else [])
  }

  /** The render decision. */
  function Render(isLoading: bool, isAuthenticated: bool, pathname: string): (v: View)
    ensures v == Loader <==> isLoading
    ensures v == ChildrenOnly <==> !isLoading && !isAuthenticated && pathname == LOGIN_PATH
    ensures v == HeaderAndChildren <==> !isLoading && isAuthenticated
    ensures v == Nothing <==> !isLoading && !isAuthenticated && pathname != LOGIN_PATH
  {
    if isLoading then Loader
    else if !isAuthenticated && pathname == LOGIN_PATH then ChildrenOnly
    else if isAuthenticated then HeaderAndChildren
    else Nothing
  }

  /**
   * Protected content is never shown to an unauthenticated user: without
   * authentication, children appear only on the login page, and never under
   * the admin header.
   */
  lemma NoProtectedContentUnauthenticated(isLoading: bool, pathname: string)
    ensures ShowsChildren(Render(isLoading, false, pathname)) ==> pathname == LOGIN_PATH
    ensures Render(isLoading, false, pathname) != HeaderAndChildren
  {
  }

  /**
   * The layout renders nothing exactly when it redirects to the login page,
   * and it redirects only once loading has finished and the spinner is gone.
   */
  lemma NothingIffRedirectToLogin(isLoading: bool, isAuthenticated: bool, pathname: string)
    ensures Render(isLoading, isAuthenticated, pathname) == Nothing
            <==> Redirects(isLoading, isAuthenticated, pathname) == [LOGIN_PATH]
    ensures Render(isLoading, isAuthenticated, pathname) == Loader
            ==> Redirects(isLoading, isAuthenticated, pathname) == []
  {
  }

  /**
   * Unlike the super-admin layout, an authenticated user on the login page
   * sees the login page under the admin header while the redirect to the
   * dashboard is pending.
   */
  lemma HeaderWhileRedirectingToDashboard()
    ensures Render(false, true, LOGIN_PATH) == HeaderAndChildren
    ensures Redirects(false, true, LOGIN_PATH) == [DASHBOARD_PATH]
  {
  }
}
