/**
 * The route guard (`ProtectedRoute`): a stateless decision on the session
 * store's `isLoading` and `isAuthenticated`. The assignment to
 * `window.location.href` is returned as the `Redirect` outcome.
 */
module ProtectedRoute {
  import opened Wrappers
  import AuthContext

  /** What the guard does with its `children`: show the loading placeholder,
      navigate away and render nothing, or render the children unchanged. */
  datatype Outcome<C> = ShowLoading | Redirect(to: string) | Render(children: C)

  /** The default of the `redirectTo` prop. */
  const DefaultRedirect: string := "/login"

  /** The guard's decision. `redirectTo` is `None` when the prop is not given. */
  function Decide<C>(isLoading: bool, isAuthenticated: bool, children: C, redirectTo: Option<string>): (r: Outcome<C>)
    ensures r.ShowLoading? <==> isLoading
    ensures r.Redirect? <==> !isLoading && !isAuthenticated
    ensures r.Render? <==> !isLoading && isAuthenticated
    ensures r.Redirect? ==> r.to == redirectTo.GetOr(DefaultRedirect)
    ensures r.Render? ==> r.children == children
  {
    if isLoading then ShowLoading
    else if !isAuthenticated then Redirect(redirectTo.GetOr(DefaultRedirect))
    else Render(children)
  }

  /** Never redirecting while loading: whatever `isAuthenticated` says, a
      session that is still being resolved is not bounced. */
  lemma NoRedirectWhileLoading<C>(isAuthenticated: bool, children: C, redirectTo: Option<string>)
    ensures Decide(true, isAuthenticated, children, redirectTo) == ShowLoading
  {
  }

  /** Over a settled store that keeps its invariant, the guard renders the
      page exactly when a user is signed in, and otherwise sends the visitor
      to the login page. */
  lemma GuardOnSettledStore<C>(store: AuthContext.AuthProvider, children: C)
    requires store.Valid() && !store.isLoading
    ensures Decide(store.isLoading, store.isAuthenticated, children, None) ==
      if store.user.Some? then Render(children) else Redirect("/login")
  {
  }
}
