/** The route guard of `middleware.ts`, which runs on `/login` and the `/dashboard`
    pages: where a request goes, given its path and the `auth-token` cookie (None when
    the request has no such cookie). */
module Middleware {
  import opened Wrappers
  import opened Strings

  /** Continue to the page, or redirect (and possibly delete the cookie). */
  datatype Decision = Continue | Redirect(to: string, deleteCookie: bool)

  const LoginPath := "/login"
  const DashboardPath := "/dashboard"

  /** verifyToken: any token longer than ten characters passes; the secret is unused. */
  function VerifyToken(token: string, secret: string): (r: bool)
    ensures r <==> |token| > 10
  {
    |token| > 10
  }

  /** The cookie counts as present when its value is not empty (`token` is truthy). */
  predicate HasToken(token: Option<string>) {
    token.Some? && token.value != ""
  }

  /** NEXTAUTH_SECRET, or "secret-key" when the environment has none. */
  function Secret(env: Option<string>): string {
    if env.Some? && env.value != "" then env.value else "secret-key"
  }

  function Route(pathname: string, token: Option<string>, env: Option<string>): (r: Decision)
    ensures pathname == LoginPath && HasToken(token) ==> r == Redirect(DashboardPath, false)
    ensures StartsWith(pathname, DashboardPath) && !HasToken(token) ==> r == Redirect(LoginPath, false)
    ensures StartsWith(pathname, DashboardPath) && HasToken(token) ==>
      (r == Redirect(LoginPath, true) <==> |token.value| <= 10)
    ensures r.Redirect? ==> r.to != pathname
    ensures r.Redirect? && r.deleteCookie ==> r.to == LoginPath
  {
    if pathname == LoginPath && HasToken(token) then Redirect(DashboardPath, false)
    else if StartsWith(pathname, DashboardPath) && !HasToken(token) then Redirect(LoginPath, false)
    else if StartsWith(pathname, DashboardPath) && HasToken(token)
            && !VerifyToken(token.value, Secret(env)) then
      Redirect(LoginPath, true)
    else Continue
  }

  /** Every request that is neither of the redirects above continues. */
  lemma EverythingElseContinues(pathname: string, token: Option<string>, env: Option<string>)
    requires !(pathname == LoginPath && HasToken(token))
    requires !StartsWith(pathname, DashboardPath) || (HasToken(token) && |token.value| > 10)
    ensures Route(pathname, token, env) == Continue
  {
  }

  /** The browser following the guard's redirects, at most `hops` times; the final
      path reached, or None when it has not settled by then. */
  function Follow(pathname: string, token: Option<string>, env: Option<string>, hops: nat): (r: Option<string>)
    decreases hops
  {
    match Route(pathname, token, env)
    case Continue => Some(pathname)
    case Redirect(to, drop) =>
      if hops == 0 then None else Follow(to, if drop then None else token, env, hops - 1)
  }

  /** There is no redirect loop: every request settles after at most two redirects
      (a short token at /login goes to /dashboard, loses its cookie there and comes back
      to /login), and it settles on the dashboard only with a token that passes. */
  lemma NoRedirectLoop(pathname: string, token: Option<string>, env: Option<string>)
    ensures Follow(pathname, token, env, 2).Some?
    ensures var r := Follow(pathname, token, env, 2);
      r.Some? && StartsWith(r.value, DashboardPath) ==> HasToken(token) && |token.value| > 10
  {
    assert StartsWith(DashboardPath, DashboardPath);
    assert !StartsWith(LoginPath, DashboardPath);
  }

  /** A short token at /login ends back at /login without its cookie. */
  lemma ShortTokenAtLogin(token: string, env: Option<string>)
    requires 0 < |token| <= 10
    ensures Route(LoginPath, Some(token), env) == Redirect(DashboardPath, false)
    ensures Route(DashboardPath, Some(token), env) == Redirect(LoginPath, true)
    ensures Follow(LoginPath, Some(token), env, 2) == Some(LoginPath)
  {
    assert StartsWith(DashboardPath, DashboardPath);
    assert !StartsWith(LoginPath, DashboardPath);
  }
}
