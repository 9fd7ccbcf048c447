/**
 * `ProtectedSuperAdminContent` of src/app/superadmin/layout.tsx: the same
 * redirect rules as the admin layout on the super-admin paths, and a render
 * decision that shows the spinner while loading or while a redirect is
 * pending.
 */
module SuperAdminLayout {
  import opened Views

  const LOGIN_PATH: string := "/superadmin/login"
  const DASHBOARD_PATH: string := "/superadmin/dashboard"

  /** The redirect effect, as in the admin layout but on the super-admin paths. */
  function Redirects(isLoading: bool, isAuthenticated: bool, pathname: string): (r: seq<string>)
    ensures |r| <= 1
    ensures isLoading ==> r == []
    ensures r == [LOGIN_PATH] <==> !isLoading && !isAuthenticated && pathname != LOGIN_PATH
    ensures r == [DASHBOARD_PATH] <==> !isLoading && isAuthenticated && pathname == LOGIN_PATH
    ensures r == [] <==> isLoading || (isAuthenticated <==> pathname != LOGIN_PATH)
  {
    assert [LOGIN_PATH] != [DASHBOARD_PATH] by {
      assert [LOGIN_PATH][0][12] != [DASHBOARD_PATH][0][12];
    }
    if isLoading then []
    else
      (if !isAuthenticated && pathname != LOGIN_PATH then [LOGIN_PATH] else [])
      + (if isAuthenticated && pathname == LOGIN_PATH then [DASHBOARD_PATH] else [])
  }

  /**
   * The render decision. Its first test combines loading with both redirect
   * conditions, which leaves the final `return null` unreachable.
   */
  function Render(isLoading: bool, isAuthenticated: bool, pathname: string): (v: View)
    ensures v != Nothing
    ensures v == ChildrenOnly <==> !isLoading && !isAuthenticated && pathname == LOGIN_PATH
    ensures v == HeaderAndChildren <==> !isLoading && isAuthenticated && pathname != LOGIN_PATH
  {
    if isLoading
       || (!isAuthenticated && pathname != LOGIN_PATH)
       || (isAuthenticated && pathname == LOGIN_PATH)
    then Loader
    else if !isAuthenticated && pathname == LOGIN_PATH then ChildrenOnly
    else if isAuthenticated then HeaderAndChildren
    else Nothing
  }

  /** The spinner shows exactly while loading or while a redirect is pending. */
  lemma LoaderIffLoadingOrRedirecting(isLoading: bool, isAuthenticated: bool, pathname: string)
    ensures Render(isLoading, isAuthenticated, pathname) == Loader
            <==> isLoading || Redirects(isLoading, isAuthenticated, pathname) != []
  {
  }

  /**
   * Children appear only when no redirect is pending, and protected content
   * never appears while unauthenticated.
   */
  lemma ChildrenOnlyWhenSettled(isLoading: bool, isAuthenticated: bool, pathname: string)
    ensures ShowsChildren(Render(isLoading, isAuthenticated, pathname))
            ==> !isLoading && Redirects(isLoading, isAuthenticated, pathname) == []
    ensures !isAuthenticated && ShowsChildren(Render(isLoading, isAuthenticated, pathname))
            ==> pathname == LOGIN_PATH
    ensures Render(isLoading, isAuthenticated, pathname) == HeaderAndChildren ==> isAuthenticated
  {
  }
}
