/** `src/components/ProtectedRoute.tsx`: what a protected route renders. */
module Routing {

  datatype Render = Loader | RedirectHome | Children

  /** The three-way decision over the authentication context's two flags. */
  function ProtectedRoute(isAuthenticated: bool, isLoading: bool): (r: Render)
    ensures r == Loader <==> isLoading
    ensures r == RedirectHome <==> !isLoading && !isAuthenticated
    ensures r == Children <==> !isLoading && isAuthenticated
  {
    if isLoading then Loader
    else if !isAuthenticated then RedirectHome
    else Children
  }

  /** Loading hides the authentication state entirely. */
  lemma LoaderIgnoresAuthentication(a: bool, b: bool)
    ensures ProtectedRoute(a, true) == ProtectedRoute(b, true) == Loader
  {
  }
}
