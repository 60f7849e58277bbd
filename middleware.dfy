/** The route guard: a request without a session for a path under /analyze is
    redirected to the login page; every other request passes through. Whether a
    session exists is an input (the auth client's answer). */
module Guard {
  import opened Text

  datatype Response = Next | Redirect(location: string)

  /** The paths the guard is registered for. */
  const Matcher := ["/analyze"]

  /** `middleware`: the guard's decision for one request. */
  function Middleware(hasSession: bool, path: string): (r: Response)
    ensures r.Redirect? <==> !hasSession && StartsWith(path, "/analyze")
    ensures r.Redirect? ==> r.location == "/login"
  {
    if !hasSession && StartsWith(path, "/analyze") then Redirect("/login") else Next
  }

  /** A matcher entry without parameters or wildcards matches that path only. */
  predicate Registered(path: string) {
    path in Matcher
  }

  /** What a request sees once the matcher has chosen whether the guard runs. */
  function Route(hasSession: bool, path: string): (r: Response)
    ensures r.Redirect? <==> !hasSession && path == "/analyze"
    ensures r.Redirect? ==> r.location == "/login"
  {
    if Registered(path) then Middleware(hasSession, path) else Next
  }

  /** A session always passes. */
  lemma SessionPasses(path: string)
    ensures Middleware(true, path) == Next
    ensures Route(true, path) == Next
  {
  }

  /** The guard never redirects a request for the login page, so its own redirect
      cannot loop. */
  lemma LoginNeverRedirected(hasSession: bool)
    ensures Middleware(hasSession, "/login") == Next
  {
  }

  /** Every registered path is one the guard covers, but the guard's prefix test
      also covers paths such as "/analyze/x" that the matcher never hands to it. */
  lemma MatcherWithinGuard()
    ensures forall p :: Registered(p) ==> StartsWith(p, "/analyze")
    ensures StartsWith("/analyze/x", "/analyze") && !Registered("/analyze/x")
  {
    assert "/analyze/x"[..8] == "/analyze";
    assert "/analyze/x" != "/analyze";
  }
}
