// components/app-layout.tsx: the page frame. A user-details page is drawn
// full width; every other page gets the sidebar.
module AppLayout {
  import opened Text

  const UsersPrefix := "/users/"

  /** `pathname.startsWith('/users/') && pathname !== '/users'`. */
  predicate IsUserDetails(pathname: string) {
    StartsWith(pathname, UsersPrefix) && pathname != "/users"
  }

  /** `{!isUserDetails && <Sidebar />}`. */
  predicate ShowsSidebar(pathname: string) {
    !IsUserDetails(pathname)
  }

  /** The second conjunct adds nothing: "/users" is too short to start with
      "/users/". A user-details page is exactly one under "/users/". */
  lemma UserDetailsIsPrefix(pathname: string)
    ensures IsUserDetails(pathname) <==> StartsWith(pathname, UsersPrefix)
    ensures ShowsSidebar(pathname) <==> !StartsWith(pathname, UsersPrefix)
  {
    if pathname == "/users" {
      assert |pathname| < |UsersPrefix|;
    }
  }

  /** The user list keeps the sidebar, a user's page hides it, and a path
      that merely begins with "/users" keeps it. */
  lemma Examples()
    ensures !IsUserDetails("/users") && ShowsSidebar("/users")
    ensures IsUserDetails("/users/usr_001") && !ShowsSidebar("/users/usr_001")
    ensures !IsUserDetails("/usersX") && ShowsSidebar("/usersX")
    ensures !IsUserDetails("/") && ShowsSidebar("/")
  {
    assert "/users/usr_001"[..|UsersPrefix|] == UsersPrefix;
    assert "/usersX"[6] != UsersPrefix[6];
  }
}
