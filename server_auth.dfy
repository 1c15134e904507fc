/**
 * The server side of the dev flag: `getCurrentUser` (src/lib/auth.ts)
 * and the guard of the protected studio route
 * (frontend/src/app/studio/page.tsx).  Only the request's cookies are
 * read; the client's key-value storage does not exist on the server.
 */
module ServerAuth {
  import opened Options
  import opened DevAuth

  datatype User = User(id: string, email: string, name: string)

  /** The fixed record every authenticated request is given. */
  const DevUser := User("dev-user", "dev@example.com", "Dev User")

  const LoginPath := "/auth/login"

  /** `getCurrentUser()` given the request's cookies. */
  function GetCurrentUser(requestCookies: map<string, string>): (user: Option<User>)
    ensures user.Some? ==> user.value == DevUser && DevAuthCookieName in requestCookies
    ensures DevAuthCookieName !in requestCookies ==> user.None?
  {
    if DevAuthCookieName in requestCookies && requestCookies[DevAuthCookieName] == "true" then
      Some(DevUser)
    else
      None
  }

  /** What the studio route answers: a redirect or the studio itself. */
  datatype StudioResponse = Redirect(location: string) | RenderStudio(user: User)

  /** `StudioPage`: `if (!user) redirect("/auth/login")`, otherwise render. */
  function StudioPage(requestCookies: map<string, string>): (response: StudioResponse)
    ensures response.Redirect? <==> GetCurrentUser(requestCookies).None?
    ensures response.Redirect? ==> response.location == LoginPath
    ensures response.RenderStudio? ==> response.user == DevUser
  {
    match GetCurrentUser(requestCookies)
    case None => Redirect(LoginPath)
    case Some(user) => RenderStudio(user)
  }

  /** A user is returned exactly when the dev cookie is present with value "true", and it is always the fixed record. */
  lemma CurrentUserIffCookieTrue(requestCookies: map<string, string>)
    ensures GetCurrentUser(requestCookies).Some?
      <==> "dev-auth" in requestCookies && requestCookies["dev-auth"] == "true"
    ensures GetCurrentUser(requestCookies).Some? ==>
      GetCurrentUser(requestCookies).value == User("dev-user", "dev@example.com", "Dev User")
  {
  }

  /** A missing cookie, and the empty value `clearDevAuth` writes, both yield no user. */
  lemma MissingOrEmptyCookieYieldsNoUser(requestCookies: map<string, string>)
    requires DevAuthCookieName !in requestCookies || requestCookies[DevAuthCookieName] == ClearingCookie.value
    ensures GetCurrentUser(requestCookies) == None
  {
  }

  /**
   * Until the session cookie's recorded expiry, seven days after
   * `setDevAuth` less under a second, the studio renders; from then on it
   * redirects to the login page.
   */
  lemma StudioOpenForSevenDaysAfterSet(s: BrowserState, t: int)
    requires s.hasWindow
    ensures StudioPage(CookieHeader(AfterSetDevAuth(s).cookies, t))
      == if t < SessionExpiry(s.now) then RenderStudio(DevUser) else Redirect(LoginPath)
    ensures t <= s.now + CookieLifetimeMs - 1000 ==> StudioPage(CookieHeader(AfterSetDevAuth(s).cookies, t)) == RenderStudio(DevUser)
    ensures t >= s.now + CookieLifetimeMs ==> StudioPage(CookieHeader(AfterSetDevAuth(s).cookies, t)) == Redirect(LoginPath)
  {
    SessionCookieLifetime(s, t);
  }

  /** After `clearDevAuth` the studio redirects to the login page. */
  lemma StudioClosedAfterClear(s: BrowserState, t: nat)
    requires s.hasWindow
    ensures StudioPage(CookieHeader(AfterClearDevAuth(s).cookies, t)) == Redirect(LoginPath)
  {
    ClearedCookieNeverSent(s, t);
  }

  /**
   * The two copies drift: once the cookie has expired, the server sees no
   * user even though the client's storage still says "true" and the
   * client-side read still reports an active session.
   */
  lemma ExpiredCookieWhileStorageSaysTrue(s: BrowserState)
    requires IsDevAuthActive(s)
    requires DevAuthCookieName in s.cookies && s.cookies[DevAuthCookieName].expiresAt <= s.now
    ensures GetCurrentUser(CookieHeader(s.cookies, s.now)) == None
    ensures StudioPage(CookieHeader(s.cookies, s.now)) == Redirect(LoginPath)
  {
  }
}
