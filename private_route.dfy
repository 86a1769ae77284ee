/** The route guard (`PrivateRoute.jsx`): protected pages render only for a signed-in user. */
module PrivateRoute {
  import opened Wrappers
  import opened Json
  import opened Web
  import AuthContext

  /** What the guard renders. */
  datatype View<T> = Redirect(to: string, replace: bool) | Children(content: T)

  /** The guard reads only the token from the session context. */
  function Guard<T>(accessToken: Json, children: T): (v: View<T>)
    ensures v.Children? <==> JsTruthy(accessToken)
    ensures v.Children? ==> v.content == children
    ensures v.Redirect? ==> v.to == "/login" && v.replace
  {
    if !JsTruthy(accessToken) then Redirect("/login", true) else Children(children)
  }

  /** An empty token counts as signed out, like a missing one. */
  lemma EmptyTokenRedirects<T>(children: T)
    ensures Guard(JStr(""), children) == Guard(JNull, children) == Redirect("/login", true)
  {
  }

  /** After `logout` every protected page redirects to the login page; after a login whose
      response carries a token, protected pages render. */
  lemma GuardFollowsSession<T>(s: AuthContext.Session, outcome: Result<Json, Error>, children: T)
    ensures Guard(AuthContext.AfterLogout(s).token, children) == Redirect("/login", true)
    ensures outcome.Success? && JsTruthyAt(outcome.value, "access_token") ==>
              Guard(AuthContext.AfterLogin(s, outcome).0.token, children) == Children(children)
  {
  }
}
